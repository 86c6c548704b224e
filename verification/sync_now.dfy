/** The sync run behind `POST /api/sync-now`: load the dedup record, fetch one batch
    of Zotero items, and for each item in order either skip it, or build its note,
    create it in Craft and mark its key, or report the error and go on.

    Network calls are inputs: the batch fetch is a `FetchResult`, and each item has
    an `ItemOracle` giving the summary service's response, how the Craft create call
    ended and the clock reading a mark would store. Calls and requests are recorded
    per item, aligned with the items, so what was (not) sent for an item can be stated.

    `RunSpec` is the run as a fold of `ProcessItem` over the batch; `SyncNow` is the
    loop itself, proved to produce exactly what `RunSpec` describes; the lemmas state
    what the route promises about every run. */
module SyncNow {
  import opened JsStrings
  import opened Zotero
  import opened Ai
  import opened State
  import opened Note

  datatype CraftConfig = CraftConfig(apiKey: string, parentDocumentId: string, targetCollectionId: Option<string>)

  /** The parts of the configuration the run itself reads (the Zotero part only
      parameterises the fetch, which is an input here). */
  datatype Config = Config(craft: CraftConfig, ai: AiConfig)

  /** The parsed request body; the two run parameters may be absent. */
  datatype RequestBody = RequestBody(config: Config, maxItems: Option<int>, skipProcessed: Option<bool>)

  datatype FetchResult = Fetched(items: seq<Item>) | FetchFailed

  /** A Craft create call: a structured entry in a collection, or the fallback sub-page
      with its hashtags. */
  datatype SinkCall =
    | CreateCollectionItem(collectionId: string, title: string, markdown: string)
    | CreateNote(title: string, markdown: string, tags: seq<string>)

  /** How a Craft create call ended: returned, or threw an error with a message. */
  datatype SinkOutcome = SinkOk | SinkThrew(message: string)

  /** What the outside world does for one item, should the run ask. */
  datatype ItemOracle = ItemOracle(summaryResponse: ChatResponse, sink: SinkOutcome, now: string)

  datatype Status = Skipped | Created | Error

  datatype LogEntry = LogEntry(title: string, status: Status, details: Option<string>)

  /** The HTTP answer: the log, or the single top-level failure (status 500). */
  datatype SyncResponse = Logs(logs: seq<LogEntry>) | Failed(error: string)

  const DEFAULT_MAX_ITEMS := 10
  const ALREADY_PROCESSED := "Already processed"
  const AI_DISABLED := "_AI summary disabled._"
  const SYNC_FAILED := "Sync process failed"

  /** The target collection, when one is configured and non-empty. */
  predicate HasTarget(craft: CraftConfig) {
    craft.targetCollectionId.Some? && craft.targetCollectionId.value != ""
  }

  /** The placement policy: a configured collection gets a collection entry, otherwise
      the note is created as a sub-page carrying the hashtags. */
  function Placement(craft: CraftConfig, title: string, markdown: string, tags: seq<string>): (call: SinkCall)
    ensures HasTarget(craft) <==> call.CreateCollectionItem?
    ensures call.CreateCollectionItem? ==> call == CreateCollectionItem(craft.targetCollectionId.value, title, markdown)
    ensures call.CreateNote? ==> call == CreateNote(title, markdown, tags)
  {
    if HasTarget(craft) then CreateCollectionItem(craft.targetCollectionId.value, title, markdown)
    else CreateNote(title, markdown, tags)
  }

  /** The summary the route puts in a note: the fixed placeholder, without asking the
      summary client, when summaries are disabled; the client's answer otherwise. */
  function ChooseSummary(ai: AiConfig, title: string, abstractNote: string, response: ChatResponse): (a: Answer<string>)
    ensures !ai.enabled ==> a == Answer(None, AI_DISABLED)
    ensures ai.enabled ==> a == GenerateSummary(ai, title, abstractNote, response)
  {
    if ai.enabled then GenerateSummary(ai, title, abstractNote, response) else Answer(None, AI_DISABLED)
  }

  /** What handling one item does: its log entry, the Craft call and summary request it
      makes, and the dedup record afterwards. */
  datatype Step = Step(entry: LogEntry, call: Option<SinkCall>, request: Option<ChatRequest>, state: SyncState)

  /** The note body and the Craft call the route builds for an item that is not skipped. */
  function CallFor(cfg: Config, item: Item, summary: string): SinkCall {
    Placement(cfg.craft, ItemTitle(item), Render(NoteOf(item, summary)), FormatTags(TagsOf(item)))
  }

  /** One iteration of the loop. */
  function ProcessItem(cfg: Config, skip: bool, st: SyncState, item: Item, o: ItemOracle): (s: Step)
    ensures s.entry.title == ItemTitle(item)
    ensures s.entry.status == Skipped <==> skip && item.key in st.processedKeys
    ensures s.entry.status == Skipped ==>
              s.entry.details == Some(ALREADY_PROCESSED) && s.call == None && s.request == None && s.state == st
    ensures s.entry.status != Skipped ==>
              var a := ChooseSummary(cfg.ai, ItemTitle(item), AbstractOf(item), o.summaryResponse);
              s.call == Some(CallFor(cfg, item, a.value)) && s.request == a.request
    ensures s.entry.status == Created <==> s.entry.status != Skipped && o.sink == SinkOk
    ensures s.entry.status == Created ==> s.entry.details == None && s.state == Marked(st, item.key, o.now)
    ensures s.entry.status == Error ==> o.sink.SinkThrew? && s.entry.details == Some(o.sink.message) && s.state == st
    ensures st.processedKeys <= s.state.processedKeys
  {
    var title := ItemTitle(item);
    if skip && item.key in st.processedKeys then
      Step(LogEntry(title, Skipped, Some(ALREADY_PROCESSED)), None, None, st)
    else
      var a := ChooseSummary(cfg.ai, title, AbstractOf(item), o.summaryResponse);
      var call := CallFor(cfg, item, a.value);
      match o.sink
      case SinkOk => Step(LogEntry(title, Created, None), Some(call), a.request, Marked(st, item.key, o.now))
      case SinkThrew(m) => Step(LogEntry(title, Error, Some(m)), Some(call), a.request, st)
  }

  /** The outcome of handling a batch: the log, and per item the Craft call and the
      summary request made, if any, and the dedup record at the end. */
  datatype Run = Run(log: seq<LogEntry>, calls: seq<Option<SinkCall>>, requests: seq<Option<ChatRequest>>, state: SyncState)

  /** A loop body as a value: from the record and one item (with what the outside world
      does for it) to that item's outcome. */
  type Stepper = (SyncState, Item, ItemOracle) -> Step

  /** Handling a batch in order with loop body `f`, starting from record `st`: each
      item is handled from the record the items before it left. */
  function Fold(f: Stepper, st: SyncState, items: seq<Item>, oracles: seq<ItemOracle>): (r: Run)
    requires |oracles| == |items|
    ensures |r.log| == |items| && |r.calls| == |items| && |r.requests| == |items|
    decreases |items|
  {
    if |items| == 0 then Run([], [], [], st)
    else
      var n := |items| - 1;
      var prev := Fold(f, st, items[..n], oracles[..n]);
      var step := f(prev.state, items[n], oracles[n]);
      Run(prev.log + [step.entry], prev.calls + [step.call], prev.requests + [step.request], step.state)
  }

  /** The record just before item `i` is handled. */
  function FoldBefore(f: Stepper, st: SyncState, items: seq<Item>, oracles: seq<ItemOracle>, i: nat): SyncState
    requires |oracles| == |items| && i <= |items|
  {
    Fold(f, st, items[..i], oracles[..i]).state
  }

  /** Item `i`'s log entry, call and request are what the loop body produces for it
      from the record the earlier items left, and so is the record after it. */
  lemma {:induction false} FoldAt(f: Stepper, st: SyncState, items: seq<Item>, oracles: seq<ItemOracle>, i: nat)
    requires |oracles| == |items| && i < |items|
    ensures var s := f(FoldBefore(f, st, items, oracles, i), items[i], oracles[i]);
            var r := Fold(f, st, items, oracles);
            && r.log[i] == s.entry && r.calls[i] == s.call && r.requests[i] == s.request
            && FoldBefore(f, st, items, oracles, i + 1) == s.state
    decreases |items|
  {
    var n := |items| - 1;
    if i == n {
      assert items[..i + 1] == items && oracles[..i + 1] == oracles;
    } else {
      FoldAt(f, st, items[..n], oracles[..n], i);
      assert items[..n][..i] == items[..i] && oracles[..n][..i] == oracles[..i];
      assert items[..n][..i + 1] == items[..i + 1] && oracles[..n][..i + 1] == oracles[..i + 1];
    }
  }

  /** The loop body never drops or reorders recorded keys. */
  ghost predicate KeepsKeys(f: Stepper) {
    forall s: SyncState, it: Item, o: ItemOracle :: s.processedKeys <= f(s, it, o).state.processedKeys
  }

  lemma SeqPrefixTransitive(a: seq<string>, b: seq<string>, c: seq<string>)
    requires a <= b && b <= c
    ensures a <= c
  {
    assert a == b[..|a|] && b == c[..|b|];
  }

  /** With such a body the key list only grows through the run: the record before item
      `i` is a prefix of the record before any later item. */
  lemma {:induction false} FoldGrows(f: Stepper, st: SyncState, items: seq<Item>, oracles: seq<ItemOracle>, i: nat, j: nat)
    requires |oracles| == |items| && i <= j <= |items| && KeepsKeys(f)
    ensures FoldBefore(f, st, items, oracles, i).processedKeys <= FoldBefore(f, st, items, oracles, j).processedKeys
    decreases j
  {
    if i < j {
      FoldGrows(f, st, items, oracles, i, j - 1);
      FoldAt(f, st, items, oracles, j - 1);
      SeqPrefixTransitive(FoldBefore(f, st, items, oracles, i).processedKeys,
                          FoldBefore(f, st, items, oracles, j - 1).processedKeys,
                          FoldBefore(f, st, items, oracles, j).processedKeys);
    }
  }

  /** The route's loop body. */
  function Body(cfg: Config, skip: bool): Stepper {
    (s: SyncState, it: Item, o: ItemOracle) => ProcessItem(cfg, skip, s, it, o)
  }

  /** The route's loop over a fetched batch, starting from record `st`. */
  function RunSpec(cfg: Config, skip: bool, st: SyncState, items: seq<Item>, oracles: seq<ItemOracle>): (r: Run)
    requires |oracles| == |items|
  {
    Fold(Body(cfg, skip), st, items, oracles)
  }

  /** The dedup record just before item `i` is handled. */
  function StateBefore(cfg: Config, skip: bool, st: SyncState, items: seq<Item>, oracles: seq<ItemOracle>, i: nat): SyncState
    requires |oracles| == |items| && i <= |items|
  {
    FoldBefore(Body(cfg, skip), st, items, oracles, i)
  }

  /** Item `i` is handled by `ProcessItem` from the record left by the items before it. */
  lemma RunAt(cfg: Config, skip: bool, st: SyncState, items: seq<Item>, oracles: seq<ItemOracle>, i: nat)
    requires |oracles| == |items| && i < |items|
    ensures var s := ProcessItem(cfg, skip, StateBefore(cfg, skip, st, items, oracles, i), items[i], oracles[i]);
            var r := RunSpec(cfg, skip, st, items, oracles);
            && r.log[i] == s.entry && r.calls[i] == s.call && r.requests[i] == s.request
            && StateBefore(cfg, skip, st, items, oracles, i + 1) == s.state
  {
    FoldAt(Body(cfg, skip), st, items, oracles, i);
  }

  /** The key list only grows through the run. */
  lemma StatesGrow(cfg: Config, skip: bool, st: SyncState, items: seq<Item>, oracles: seq<ItemOracle>, i: nat, j: nat)
    requires |oracles| == |items| && i <= j <= |items|
    ensures StateBefore(cfg, skip, st, items, oracles, i).processedKeys
            <= StateBefore(cfg, skip, st, items, oracles, j).processedKeys
  {
    var f := Body(cfg, skip);
    forall s: SyncState, it: Item, o: ItemOracle ensures s.processedKeys <= f(s, it, o).state.processedKeys {
      assert f(s, it, o) == ProcessItem(cfg, skip, s, it, o);
    }
    FoldGrows(f, st, items, oracles, i, j);
  }

  /** The initial keys keep their places through the whole run. */
  lemma RunGrows(cfg: Config, skip: bool, st: SyncState, items: seq<Item>, oracles: seq<ItemOracle>)
    requires |oracles| == |items|
    ensures st.processedKeys <= RunSpec(cfg, skip, st, items, oracles).state.processedKeys
  {
    StatesGrow(cfg, skip, st, items, oracles, 0, |items|);
    assert items[..0] == [] && oracles[..0] == [];
    assert items[..|items|] == items && oracles[..|items|] == oracles;
  }

  /** The log has one entry per fetched item, in fetch order, titled with the item's
      title or "Untitled". */
  lemma RunLogFollowsItems(cfg: Config, skip: bool, st: SyncState, items: seq<Item>, oracles: seq<ItemOracle>)
    requires |oracles| == |items|
    ensures var r := RunSpec(cfg, skip, st, items, oracles);
            && |r.log| == |items|
            && forall i :: 0 <= i < |items| ==> r.log[i].title == ItemTitle(items[i])
  {
    var r := RunSpec(cfg, skip, st, items, oracles);
    forall i | 0 <= i < |items| ensures r.log[i].title == ItemTitle(items[i]) {
      RunAt(cfg, skip, st, items, oracles, i);
    }
  }

  /** With skipping on, an item whose key is already recorded is logged as skipped with
      "Already processed", causes no Craft call and no summary request, and leaves the
      record as it was. */
  lemma RunSkipsProcessed(cfg: Config, st: SyncState, items: seq<Item>, oracles: seq<ItemOracle>, i: nat)
    requires |oracles| == |items| && i < |items|
    requires items[i].key in StateBefore(cfg, true, st, items, oracles, i).processedKeys
    ensures var r := RunSpec(cfg, true, st, items, oracles);
            && r.log[i] == LogEntry(ItemTitle(items[i]), Skipped, Some(ALREADY_PROCESSED))
            && r.calls[i] == None && r.requests[i] == None
            && StateBefore(cfg, true, st, items, oracles, i + 1) == StateBefore(cfg, true, st, items, oracles, i)
  {
    RunAt(cfg, true, st, items, oracles, i);
  }

  /** An item that is not skipped always gets its Craft call; it is logged as created
      exactly when that call returned, and then its key is marked; when the call threw,
      it is logged as an error with the message and the record is left as it was. */
  lemma RunMarksOnlyAfterCreate(cfg: Config, skip: bool, st: SyncState, items: seq<Item>, oracles: seq<ItemOracle>, i: nat)
    requires |oracles| == |items| && i < |items|
    requires !(skip && items[i].key in StateBefore(cfg, skip, st, items, oracles, i).processedKeys)
    ensures var r := RunSpec(cfg, skip, st, items, oracles);
            var before := StateBefore(cfg, skip, st, items, oracles, i);
            var after := StateBefore(cfg, skip, st, items, oracles, i + 1);
            && r.calls[i].Some?
            && (r.log[i].status == Created <==> oracles[i].sink == SinkOk)
            && (oracles[i].sink == SinkOk ==> after == Marked(before, items[i].key, oracles[i].now))
            && (oracles[i].sink.SinkThrew? ==>
                  r.log[i] == LogEntry(ItemTitle(items[i]), Error, Some(oracles[i].sink.message)) && after == before)
  {
    RunAt(cfg, skip, st, items, oracles, i);
  }

  /** With a non-empty target collection every Craft call is a collection entry in it;
      otherwise every call is a sub-page carrying the item's hashtags. Either way the
      call carries the reported title. */
  lemma RunPlacement(cfg: Config, skip: bool, st: SyncState, items: seq<Item>, oracles: seq<ItemOracle>)
    requires |oracles| == |items|
    ensures var r := RunSpec(cfg, skip, st, items, oracles);
            forall i :: 0 <= i < |items| && r.calls[i].Some? ==>
              && r.calls[i].value.title == ItemTitle(items[i])
              && (HasTarget(cfg.craft) ==>
                    r.calls[i].value.CreateCollectionItem?
                    && r.calls[i].value.collectionId == cfg.craft.targetCollectionId.value)
              && (!HasTarget(cfg.craft) ==>
                    r.calls[i].value.CreateNote? && r.calls[i].value.tags == FormatTags(TagsOf(items[i])))
  {
    var r := RunSpec(cfg, skip, st, items, oracles);
    forall i | 0 <= i < |items| && r.calls[i].Some?
      ensures r.calls[i].value.title == ItemTitle(items[i])
      ensures HasTarget(cfg.craft) ==> r.calls[i].value.CreateCollectionItem?
                                       && r.calls[i].value.collectionId == cfg.craft.targetCollectionId.value
      ensures !HasTarget(cfg.craft) ==> r.calls[i].value.CreateNote? && r.calls[i].value.tags == FormatTags(TagsOf(items[i]))
    {
      RunAt(cfg, skip, st, items, oracles, i);
    }
  }

  /** With summaries disabled the summary service is never asked, and every note's
      Summary section is exactly the disabled placeholder. */
  lemma RunWithSummariesDisabled(cfg: Config, skip: bool, st: SyncState, items: seq<Item>, oracles: seq<ItemOracle>)
    requires |oracles| == |items| && !cfg.ai.enabled
    ensures var r := RunSpec(cfg, skip, st, items, oracles);
            forall i :: 0 <= i < |items| ==>
              && r.requests[i] == None
              && (r.calls[i].Some? ==> r.calls[i] == Some(CallFor(cfg, items[i], AI_DISABLED)))
  {
    var r := RunSpec(cfg, skip, st, items, oracles);
    forall i | 0 <= i < |items|
      ensures r.requests[i] == None
      ensures r.calls[i].Some? ==> r.calls[i] == Some(CallFor(cfg, items[i], AI_DISABLED))
    {
      RunAt(cfg, skip, st, items, oracles, i);
    }
  }

  /** The keys of the items logged as created, in log order. */
  function CreatedKeys(items: seq<Item>, log: seq<LogEntry>): seq<string>
    requires |log| == |items|
    decreases |items|
  {
    if |items| == 0 then []
    else
      var n := |items| - 1;
      CreatedKeys(items[..n], log[..n]) + (if log[n].status == Created then [items[n].key] else [])
  }

  /** A run adds to the record exactly the keys of the items it logged as created: the
      final key list holds the initial keys and those, and nothing else. */
  lemma {:induction false} RunAddsCreatedKeys(cfg: Config, skip: bool, st: SyncState, items: seq<Item>, oracles: seq<ItemOracle>)
    requires |oracles| == |items|
    ensures var r := RunSpec(cfg, skip, st, items, oracles);
            forall k :: k in r.state.processedKeys <==> k in st.processedKeys || k in CreatedKeys(items, r.log)
    decreases |items|
  {
    if |items| != 0 {
      var n := |items| - 1;
      var r := RunSpec(cfg, skip, st, items, oracles);
      var prev := RunSpec(cfg, skip, st, items[..n], oracles[..n]);
      RunAddsCreatedKeys(cfg, skip, st, items[..n], oracles[..n]);
      assert r.log[..n] == prev.log;
    }
  }

  /** With skipping on, the new keys are appended in creation order: the final key list
      is the initial one followed by the keys of the created items. */
  lemma {:induction false} RunAppendsCreatedKeys(cfg: Config, st: SyncState, items: seq<Item>, oracles: seq<ItemOracle>)
    requires |oracles| == |items|
    ensures var r := RunSpec(cfg, true, st, items, oracles);
            r.state.processedKeys == st.processedKeys + CreatedKeys(items, r.log)
    decreases |items|
  {
    if |items| != 0 {
      var n := |items| - 1;
      var r := RunSpec(cfg, true, st, items, oracles);
      var prev := RunSpec(cfg, true, st, items[..n], oracles[..n]);
      RunAppendsCreatedKeys(cfg, st, items[..n], oracles[..n]);
      assert r.log[..n] == prev.log;
    }
  }

  /** The record never gains a duplicate key during a run. */
  lemma {:induction false} RunKeepsNoDuplicates(cfg: Config, skip: bool, st: SyncState, items: seq<Item>, oracles: seq<ItemOracle>)
    requires |oracles| == |items| && NoDuplicates(st.processedKeys)
    ensures NoDuplicates(RunSpec(cfg, skip, st, items, oracles).state.processedKeys)
    decreases |items|
  {
    if |items| != 0 {
      var n := |items| - 1;
      var prev := RunSpec(cfg, skip, st, items[..n], oracles[..n]);
      RunKeepsNoDuplicates(cfg, skip, st, items[..n], oracles[..n]);
      MarkedKeepsNoDuplicates(prev.state, items[n].key, oracles[n].now);
    }
  }

  /** A run that adds no key leaves `lastSync` as it was. */
  lemma {:induction false} RunStampsOnlyWhenAdding(cfg: Config, skip: bool, st: SyncState, items: seq<Item>, oracles: seq<ItemOracle>)
    requires |oracles| == |items|
    ensures var r := RunSpec(cfg, skip, st, items, oracles);
            r.state.processedKeys == st.processedKeys ==> r.state.lastSync == st.lastSync
    decreases |items|
  {
    var r := RunSpec(cfg, skip, st, items, oracles);
    if |items| != 0 && r.state.processedKeys == st.processedKeys {
      var n := |items| - 1;
      var prev := RunSpec(cfg, skip, st, items[..n], oracles[..n]);
      var step := ProcessItem(cfg, skip, prev.state, items[n], oracles[n]);
      assert r.state == step.state;
      RunGrows(cfg, skip, st, items[..n], oracles[..n]);
      assert prev.state.processedKeys == st.processedKeys;
      RunStampsOnlyWhenAdding(cfg, skip, st, items[..n], oracles[..n]);
      MarkedStampsOnlyNewKeys(prev.state, items[n].key, oracles[n].now);
    }
  }

  /** With skipping on, the record is read live: once an item is created, a later item
      with the same key in the same batch is skipped, so no key is created twice. */
  lemma RunCreatesEachKeyOnce(cfg: Config, st: SyncState, items: seq<Item>, oracles: seq<ItemOracle>, i: nat, j: nat)
    requires |oracles| == |items| && i < j < |items| && items[i].key == items[j].key
    ensures var r := RunSpec(cfg, true, st, items, oracles);
            r.log[i].status == Created ==> r.log[j].status == Skipped && r.calls[j] == None
  {
    var r := RunSpec(cfg, true, st, items, oracles);
    if r.log[i].status == Created {
      RunAt(cfg, true, st, items, oracles, i);
      MarkedGrows(StateBefore(cfg, true, st, items, oracles, i), items[i].key, oracles[i].now);
      StatesGrow(cfg, true, st, items, oracles, i + 1, j);
      RunAt(cfg, true, st, items, oracles, j);
    }
  }

  /** Every key recorded before or during a run is in the final record. */
  lemma KeyStaysRecorded(cfg: Config, skip: bool, st: SyncState, items: seq<Item>, oracles: seq<ItemOracle>, i: nat, key: string)
    requires |oracles| == |items| && i <= |items|
    requires key in StateBefore(cfg, skip, st, items, oracles, i).processedKeys
    ensures key in RunSpec(cfg, skip, st, items, oracles).state.processedKeys
  {
    StatesGrow(cfg, skip, st, items, oracles, i, |items|);
    assert items[..|items|] == items && oracles[..|items|] == oracles;
  }

  /** Running again over the same batch with skipping on: every item the first run
      created or skipped is skipped, with no Craft call, so nothing is written twice. */
  lemma SecondRunSkips(cfg: Config, st: SyncState, items: seq<Item>, first: seq<ItemOracle>, second: seq<ItemOracle>)
    requires |first| == |items| && |second| == |items|
    ensures var r1 := RunSpec(cfg, true, st, items, first);
            var r2 := RunSpec(cfg, true, r1.state, items, second);
            forall i :: 0 <= i < |items| && r1.log[i].status != Error ==>
              r2.log[i].status == Skipped && r2.calls[i] == None
  {
    var r1 := RunSpec(cfg, true, st, items, first);
    var r2 := RunSpec(cfg, true, r1.state, items, second);
    forall i | 0 <= i < |items| && r1.log[i].status != Error
      ensures r2.log[i].status == Skipped && r2.calls[i] == None
    {
      RunAt(cfg, true, st, items, first, i);
      if r1.log[i].status == Created {
        MarkedGrows(StateBefore(cfg, true, st, items, first, i), items[i].key, first[i].now);
        KeyStaysRecorded(cfg, true, st, items, first, i + 1, items[i].key);
      } else {
        KeyStaysRecorded(cfg, true, st, items, first, i, items[i].key);
      }
      StatesGrow(cfg, true, r1.state, items, second, 0, i);
      assert items[..0] == [] && second[..0] == [];
      RunAt(cfg, true, r1.state, items, second, i);
    }
  }

  /** `POST /api/sync-now`. A body that cannot be read or a failed fetch ends the run
      with the single error "Sync process failed", no log and no change to the record.
      Otherwise the items are handled in order as `RunSpec` describes, reading and
      marking the live record `store`. */
  method SyncNow(store: MemoryStore, body: Option<RequestBody>, fetch: FetchResult, oracles: seq<ItemOracle>)
      returns (response: SyncResponse, fetchLimit: Option<int>, calls: seq<Option<SinkCall>>, requests: seq<Option<ChatRequest>>)
    requires store.Valid()
    requires fetch.Fetched? ==> |oracles| == |fetch.items|
    modifies store
    ensures store.Valid()
    ensures body.None? ==> fetchLimit == None
    ensures body.Some? ==> fetchLimit == Some(body.value.maxItems.GetOr(DEFAULT_MAX_ITEMS))
    ensures body.None? || fetch.FetchFailed? ==>
              response == Failed(SYNC_FAILED) && calls == [] && requests == [] && store.State() == old(store.State())
    ensures body.Some? && fetch.Fetched? ==>
              var r := RunSpec(body.value.config, body.value.skipProcessed.GetOr(true), old(store.State()), fetch.items, oracles);
              response == Logs(r.log) && calls == r.calls && requests == r.requests && store.State() == r.state
  {
    calls, requests := [], [];
    if body.None? {
      response, fetchLimit := Failed(SYNC_FAILED), None;
      return;
    }
    var cfg := body.value.config;
    var maxItems := body.value.maxItems.GetOr(DEFAULT_MAX_ITEMS);
    var skipProcessed := body.value.skipProcessed.GetOr(true);
    fetchLimit := Some(maxItems);
    if fetch.FetchFailed? {
      response := Failed(SYNC_FAILED);
      return;
    }
    var items := fetch.items;
    var logs: seq<LogEntry> := [];
    ghost var st0 := store.State();
    for i := 0 to |items|
      invariant store.Valid()
      invariant Run(logs, calls, requests, store.State()) == RunSpec(cfg, skipProcessed, st0, items[..i], oracles[..i])
    {
      assert items[..i + 1][..i] == items[..i] && oracles[..i + 1][..i] == oracles[..i];
      var item := items[i];
      var itemTitle := ItemTitle(item);
      if skipProcessed && item.key in store.processedKeys {
        logs := logs + [LogEntry(itemTitle, Skipped, Some(ALREADY_PROCESSED))];
        calls := calls + [None];
        requests := requests + [None];
        continue;
      }
      var abstractNote := AbstractOf(item);
      var aiSummary: string;
      var request: Option<ChatRequest>;
      if cfg.ai.enabled {
        var answer := GenerateSummary(cfg.ai, itemTitle, abstractNote, oracles[i].summaryResponse);
        aiSummary, request := answer.value, answer.request;
      } else {
        aiSummary, request := AI_DISABLED, None;
      }
      var tags := FormatTags(TagsOf(item));
      var markdownBody := Render(NoteOf(item, aiSummary));
      var call: SinkCall;
      if HasTarget(cfg.craft) {
        call := CreateCollectionItem(cfg.craft.targetCollectionId.value, itemTitle, markdownBody);
      } else {
        call := CreateNote(itemTitle, markdownBody, tags);
      }
      calls := calls + [Some(call)];
      requests := requests + [request];
      match oracles[i].sink {
        case SinkOk =>
          store.MarkAsProcessed(item.key, oracles[i].now);
          logs := logs + [LogEntry(itemTitle, Created, None)];
        case SinkThrew(message) =>
          logs := logs + [LogEntry(itemTitle, Error, Some(message))];
      }
    }
    assert items[..|items|] == items && oracles[..|items|] == oracles;
    response := Logs(logs);
  }
}
