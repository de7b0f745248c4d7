/** The graph of one scan (app/agents/scan_graph.py): four nodes over a shared
    state, each followed by an edge that stops on an error. */
module ScanGraph {
  import opened Wrappers
  import opened Findings
  import Streams

  /** Failure reasons are codes, never empty. */
  type Reason = s: string | s != "" witness "internal_error"

  /** What the nodes call: the resolved target, the addresses' versions, one
      scanner run per family and the parser. */
  datatype Tools = Tools(target: Result<seq<string>, Reason>, version: string -> int,
                         run: seq<string> -> Result<string, Reason>, parse: string -> Result<seq<Host>, string>) {
    ghost predicate Valid() {
      && (target.Ok? ==> forall a | a in target.value :: version(a) == 4 || version(a) == 6)
      && (forall d :: parse(d).Err? ==> parse(d).error != "")
    }
  }

  datatype GraphState = GraphState(error: Option<string>, documents: seq<string>, rawXml: string,
                                   findings: seq<Draft>, completed: bool)

  const START := GraphState(None, [], "", [], false)

  /** `next_step`. */
  predicate Stops(state: GraphState) {
    state.error.Some? && state.error.value != ""
  }

  function Lines(documents: seq<string>): string {
    if documents == [] then "" else if |documents| == 1 then documents[0] else documents[0] + "\n" + Lines(documents[1..])
  }

  /** A line break between two documents, none around them. */
  lemma {:induction false} LinesBetween(documents: seq<string>, last: string)
    ensures Lines(documents + [last]) == if documents == [] then last else Lines(documents) + "\n" + last
  {
    if |documents| > 0 {
      assert (documents + [last])[1..] == documents[1..] + [last];
      LinesBetween(documents[1..], last);
    }
  }

  // ---- What a scan of one target amounts to ----

  function Families(tools: Tools, addresses: seq<string>): seq<seq<string>> {
    Streams.NonEmpty(Streams.Family(addresses, tools.version, 4)) + Streams.NonEmpty(Streams.Family(addresses, tools.version, 6))
  }

  function Reports(tools: Tools, documents: seq<string>): (reports: seq<Result<seq<Host>, string>>)
    ensures |reports| == |documents|
    ensures forall i | 0 <= i < |documents| :: reports[i] == tools.parse(documents[i])
  {
    if documents == [] then []
    else Reports(tools, documents[..|documents| - 1]) + [tools.parse(documents[|documents| - 1])]
  }

  /** The documents of the families' runs, if all succeed. */
  ghost predicate Collected(tools: Tools, families: seq<seq<string>>, documents: seq<string>) {
    |documents| == |families| && forall i | 0 <= i < |families| :: tools.run(families[i]) == Ok(documents[i])
  }

  /** The reason of the first family whose run fails. */
  ghost predicate FirstRunFailure(tools: Tools, families: seq<seq<string>>, reason: Option<string>) {
    exists i | 0 <= i < |families| ::
      && tools.run(families[i]).Err? && reason == Some(tools.run(families[i]).error)
      && forall j | 0 <= j < i :: tools.run(families[j]).Ok?
  }

  /** The reason of the first document that does not parse. */
  ghost predicate FirstParseFailure(tools: Tools, documents: seq<string>, reason: Option<string>) {
    exists i | 0 <= i < |documents| ::
      && tools.parse(documents[i]).Err? && reason == Some(tools.parse(documents[i]).error)
      && forall j | 0 <= j < i :: tools.parse(documents[j]).Ok?
  }

  method ScanNode(tools: Tools, state: GraphState) returns (next: GraphState)
    requires tools.Valid() && !Stops(state)
    ensures Stops(next) <==>
            tools.target.Err? || exists g | g in Families(tools, tools.target.value) :: tools.run(g).Err?
    ensures !Stops(next) ==>
              && Collected(tools, Families(tools, tools.target.value), next.documents)
              && next == state.(documents := next.documents, rawXml := Lines(next.documents))
    ensures Stops(next) ==>
              && next == state.(error := next.error)
              && if tools.target.Err? then next.error == Some(tools.target.error)
                 else FirstRunFailure(tools, Families(tools, tools.target.value), next.error)
  {
    if tools.target.Err? {
      return state.(error := Some(tools.target.error));
    }
    var families := Streams.SplitByFamily(tools.target.value, tools.version);
    var documents: seq<string> := [];
    for i := 0 to |families|
      invariant |documents| == i && forall j | 0 <= j < i :: tools.run(families[j]) == Ok(documents[j])
    {
      var result := tools.run(families[i]);
      if result.Err? {
        assert families[i] in families;
        return state.(error := Some(result.error));
      }
      documents := documents + [result.value];
    }
    next := state.(documents := documents, rawXml := Lines(documents));
  }

  method ParseDocuments(tools: Tools, state: GraphState) returns (next: GraphState)
    requires tools.Valid() && !Stops(state)
    ensures Stops(next) <==> exists d | d in state.documents :: tools.parse(d).Err?
    ensures !Stops(next) ==> next == state.(findings := Extracted(AllHosts(Reports(tools, state.documents))))
    ensures Stops(next) ==>
              && next == state.(error := next.error) && FirstParseFailure(tools, state.documents, next.error)
  {
    var reports := Reports(tools, state.documents);
    var drafts := ParseNode(reports);
    if drafts.Err? {
      ghost var i :| 0 <= i < |reports| && reports[i] == Err(drafts.error);
      assert state.documents[i] in state.documents && tools.parse(state.documents[i]).Err?;
      return state.(error := Some(drafts.error));
    }
    forall d | d in state.documents ensures tools.parse(d).Ok? {
      var i :| 0 <= i < |state.documents| && state.documents[i] == d;
      assert reports[i].Ok?;
    }
    next := state.(findings := drafts.value);
  }

  /** Nothing went wrong before the insert. */
  ghost predicate Sound(tools: Tools, documents: seq<string>) {
    && tools.target.Ok? && Collected(tools, Families(tools, tools.target.value), documents)
    && forall d | d in documents :: tools.parse(d).Ok?
  }

  /** The whole graph. It completes exactly if target, runs and parsing are sound,
      and then stores what one insert of all findings of all reports would; an
      error at any node stores nothing. */
  method RunGraph(tools: Tools, text: Text, store: FindingStore) returns (state: GraphState)
    requires tools.Valid()
    modifies store
    ensures state.completed <==> exists documents :: Sound(tools, documents)
    ensures state.completed <==> !Stops(state)
    ensures Stops(state) ==> store.rows == old(store.rows)
    ensures Stops(state) ==>
              if tools.target.Err? then state.error == Some(tools.target.error)
              else || FirstRunFailure(tools, Families(tools, tools.target.value), state.error)
                   || (&& Collected(tools, Families(tools, tools.target.value), state.documents)
                       && FirstParseFailure(tools, state.documents, state.error))
    ensures state.completed ==>
              && Sound(tools, state.documents) && state.rawXml == Lines(state.documents)
              && store.rows == Upserted(text, old(store.rows), Extracted(AllHosts(Reports(tools, state.documents))))
  {
    state := ScanNode(tools, START);
    if Stops(state) {
      NothingCollected(tools);
      return;
    }
    ghost var documents := state.documents;
    state := ParseDocuments(tools, state);
    if Stops(state) {
      OnlyOneCollection(tools, documents);
      return;
    }
    ghost var drafts := state.findings;
    var kept, skipped := DedupNode(text, state.findings);
    state := state.(findings := kept);
    var created, updated, left := store.UpsertFindings(text, state.findings);
    state := state.(completed := true);
    PipelineStoresWhatUpsertWould(text, old(store.rows), AllHosts(Reports(tools, documents)));
    assert Sound(tools, documents);
  }

  lemma AllRan(tools: Tools, families: seq<seq<string>>, documents: seq<string>)
    ensures Collected(tools, families, documents) ==> forall g | g in families :: tools.run(g).Ok?
  {
  }

  lemma NothingCollected(tools: Tools)
    requires tools.target.Err? || exists g | g in Families(tools, tools.target.value) :: tools.run(g).Err?
    ensures forall documents :: !Sound(tools, documents)
  {
    if tools.target.Ok? {
      var families := Families(tools, tools.target.value);
      forall documents ensures Collected(tools, families, documents) ==> forall g | g in families :: tools.run(g).Ok? {
        AllRan(tools, families, documents);
      }
    }
  }

  lemma OnlyOneCollection(tools: Tools, documents: seq<string>)
    requires tools.target.Ok? && Collected(tools, Families(tools, tools.target.value), documents)
    requires exists d | d in documents :: tools.parse(d).Err?
    ensures forall others :: !Sound(tools, others)
  {
    forall others ensures !Sound(tools, others) {
      if Collected(tools, Families(tools, tools.target.value), others) {
        assert others == documents;
      }
    }
  }
}
