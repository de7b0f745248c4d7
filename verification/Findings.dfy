/** The findings of one scan: their identity, the in-run deduplication and the
    idempotent insert (app/modules/vulnerabilities/service.py, app/agents/scan_graph.py). */
module Findings {
  import opened Wrappers

  /** The string methods of the host language: Unicode tables stay uninterpreted. */
  datatype Text = Text(strip: string -> string, lower: string -> string, upper: string -> string)

  /** `metadata` holds each value as `str()` prints it, None where it is None. */
  datatype Draft = Draft(title: string, description: string, severity: string, cve: Option<string>,
                         score: Option<real>, metadata: map<string, Option<string>>)

  predicate Canonical(severity: string) {
    severity in {"critical", "high", "medium", "low", "info"}
  }

  function Field(text: Text, d: Draft, name: string): string {
    if name in d.metadata && d.metadata[name].Some? then text.strip(d.metadata[name].value) else ""
  }

  function Parts(text: Text, d: Draft): (parts: seq<string>)
    ensures |parts| == 5
  {
    [text.lower(Field(text, d, "script_id")), text.lower(Field(text, d, "host")), Field(text, d, "port"),
     text.lower(Field(text, d, "protocol")),
     text.upper(text.strip(if d.cve.Some? then d.cve.value else ""))]
  }

  function JoinBar(parts: seq<string>): string {
    if parts == [] then [] else if |parts| == 1 then parts[0] else parts[0] + "|" + JoinBar(parts[1..])
  }

  /** `finding_identity`. */
  function Identity(text: Text, d: Draft): string {
    var parts := Parts(text, d);
    if forall i | 0 <= i < 5 :: parts[i] == "" then text.lower(text.strip(d.title)) else JoinBar(parts)
  }

  lemma PrefixUpToBar(a: string, b: string, x: string, y: string)
    requires '|' !in a && '|' !in b && a + "|" + x == b + "|" + y
    ensures a == b && x == y
  {
    var s, t := a + "|" + x, b + "|" + y;
    assert s[|a|] == '|' && t[|b|] == '|';
    assert forall i | 0 <= i < |a| :: s[i] == a[i];
    assert forall i | 0 <= i < |b| :: t[i] == b[i];
    assert |a| == |b|;
    assert a == s[..|a|] && b == t[..|b|] && x == s[|a| + 1..] && y == t[|b| + 1..];
  }

  lemma {:induction false} JoinIsInjective(a: seq<string>, b: seq<string>)
    requires |a| == |b| && forall i | 0 <= i < |a| :: '|' !in a[i] && '|' !in b[i]
    requires JoinBar(a) == JoinBar(b)
    ensures a == b
  {
    if |a| > 1 {
      PrefixUpToBar(a[0], b[0], JoinBar(a[1..]), JoinBar(b[1..]));
      JoinIsInjective(a[1..], b[1..]);
      assert a == [a[0]] + a[1..] && b == [b[0]] + b[1..];
    }
  }

  /** Two findings with a surface share an identity exactly when all five parts
      agree, as long as no part holds the separator. */
  lemma IdentityIsTheSurface(text: Text, d: Draft, e: Draft)
    requires forall i | 0 <= i < 5 :: '|' !in Parts(text, d)[i] && '|' !in Parts(text, e)[i]
    requires (exists i | 0 <= i < 5 :: Parts(text, d)[i] != "") && (exists i | 0 <= i < 5 :: Parts(text, e)[i] != "")
    ensures Identity(text, d) == Identity(text, e) <==> Parts(text, d) == Parts(text, e)
  {
    if Identity(text, d) == Identity(text, e) {
      JoinIsInjective(Parts(text, d), Parts(text, e));
    }
  }

  // ---- Deduplication and insert ----

  function Ids(text: Text, rows: seq<Draft>): set<string> {
    set d | d in rows :: Identity(text, d)
  }

  /** The first draft of every identity. */
  function Dedup(text: Text, seen: set<string>, drafts: seq<Draft>): seq<Draft>
    decreases |drafts|
  {
    if drafts == [] then []
    else
      var key := Identity(text, drafts[0]);
      if key in seen then Dedup(text, seen, drafts[1..])
      else [drafts[0]] + Dedup(text, seen + {key}, drafts[1..])
  }

  /** The rows an insert adds. */
  function Fresh(text: Text, seen: set<string>, drafts: seq<Draft>): seq<Draft>
    decreases |drafts|
  {
    if drafts == [] then []
    else
      var key := Identity(text, drafts[0]);
      if Canonical(drafts[0].severity) && key !in seen then [drafts[0]] + Fresh(text, seen + {key}, drafts[1..])
      else Fresh(text, seen, drafts[1..])
  }

  function Upserted(text: Text, rows: seq<Draft>, drafts: seq<Draft>): seq<Draft> {
    rows + Fresh(text, Ids(text, rows), drafts)
  }

  predicate DistinctIds(text: Text, rows: seq<Draft>) {
    forall i, j | 0 <= i < j < |rows| :: Identity(text, rows[i]) != Identity(text, rows[j])
  }

  /** Every added row is a canonical draft whose identity is stored nowhere else. */
  lemma {:induction false} FreshRows(text: Text, seen: set<string>, drafts: seq<Draft>)
    ensures var rows := Fresh(text, seen, drafts);
            && |rows| <= |drafts| && DistinctIds(text, rows)
            && forall d | d in rows :: d in drafts && Canonical(d.severity) && Identity(text, d) !in seen
    decreases |drafts|
  {
    if drafts != [] {
      var key := Identity(text, drafts[0]);
      FreshRows(text, seen, drafts[1..]);
      FreshRows(text, seen + {key}, drafts[1..]);
    }
  }

  /** Every canonical draft ends up stored under its identity. */
  lemma {:induction false} FreshCovers(text: Text, seen: set<string>, drafts: seq<Draft>, d: Draft)
    requires d in drafts && Canonical(d.severity)
    ensures Identity(text, d) in seen + Ids(text, Fresh(text, seen, drafts))
    decreases |drafts|
  {
    var key, rest := Identity(text, drafts[0]), drafts[1..];
    if Canonical(drafts[0].severity) && key !in seen {
      var tail := Fresh(text, seen + {key}, rest);
      assert forall e | e in tail :: e in Fresh(text, seen, drafts);
      assert drafts[0] in Fresh(text, seen, drafts);
      if d != drafts[0] {
        FreshCovers(text, seen + {key}, rest, d);
      }
    } else if d != drafts[0] {
      FreshCovers(text, seen, rest, d);
    }
  }

  lemma {:induction false} NothingFresh(text: Text, seen: set<string>, drafts: seq<Draft>)
    requires forall d | d in drafts && Canonical(d.severity) :: Identity(text, d) in seen
    ensures Fresh(text, seen, drafts) == []
  {
    if drafts != [] {
      NothingFresh(text, seen, drafts[1..]);
    }
  }

  /** A second run of the same drafts creates nothing. */
  lemma RerunCreatesNothing(text: Text, rows: seq<Draft>, drafts: seq<Draft>)
    ensures Upserted(text, Upserted(text, rows, drafts), drafts) == Upserted(text, rows, drafts)
  {
    var after := Upserted(text, rows, drafts);
    forall d | d in drafts && Canonical(d.severity) ensures Identity(text, d) in Ids(text, after) {
      FreshCovers(text, Ids(text, rows), drafts, d);
      assert Ids(text, after) == Ids(text, rows) + Ids(text, Fresh(text, Ids(text, rows), drafts));
    }
    NothingFresh(text, Ids(text, after), drafts);
  }

  /** No insert ever makes two rows of a scan share an identity. */
  lemma UpsertKeepsIdsDistinct(text: Text, rows: seq<Draft>, drafts: seq<Draft>)
    requires DistinctIds(text, rows)
    ensures DistinctIds(text, Upserted(text, rows, drafts))
  {
    FreshRows(text, Ids(text, rows), drafts);
  }

  class FindingStore {
    var rows: seq<Draft>

    /** `upsert_findings` of one scan. */
    method UpsertFindings(text: Text, drafts: seq<Draft>) returns (created: nat, updated: nat, skipped: nat)
      modifies this
      ensures rows == Upserted(text, old(rows), drafts)
      ensures created + skipped == |drafts| && updated == 0
      ensures created == |rows| - |old(rows)|
    {
      var seen := Ids(text, rows);
      created, updated, skipped := 0, 0, 0;
      for i := 0 to |drafts|
        invariant rows + Fresh(text, seen, drafts[i..]) == Upserted(text, old(rows), drafts)
        invariant created + skipped == i && created == |rows| - |old(rows)|
      {
        var draft, key := drafts[i], Identity(text, drafts[i]);
        assert drafts[i..][1..] == drafts[i + 1..];
        if !Canonical(draft.severity) || key in seen {
          skipped := skipped + 1;
          continue;
        }
        assert rows + ([draft] + Fresh(text, seen + {key}, drafts[i + 1..]))
            == (rows + [draft]) + Fresh(text, seen + {key}, drafts[i + 1..]);
        seen := seen + {key};
        rows := rows + [draft];
        created := created + 1;
      }
    }
  }

  /** `dedup_node`. */
  method DedupNode(text: Text, raw: seq<Draft>) returns (kept: seq<Draft>, skipped: nat)
    ensures kept == Dedup(text, {}, raw) && skipped == |raw| - |kept|
  {
    var seen: set<string> := {};
    kept, skipped := [], 0;
    for i := 0 to |raw|
      invariant kept + Dedup(text, seen, raw[i..]) == Dedup(text, {}, raw)
      invariant skipped + |kept| == i
    {
      var key := Identity(text, raw[i]);
      assert raw[i..][1..] == raw[i + 1..];
      if key in seen {
        skipped := skipped + 1;
        continue;
      }
      assert kept + ([raw[i]] + Dedup(text, seen + {key}, raw[i + 1..]))
          == (kept + [raw[i]]) + Dedup(text, seen + {key}, raw[i + 1..]);
      seen := seen + {key};
      kept := kept + [raw[i]];
    }
  }

  // ---- Deduplication before the insert ----

  /** The first draft of the identity, and not canonical. */
  predicate BadFirst(text: Text, drafts: seq<Draft>, key: string, j: nat)
    requires j < |drafts|
  {
    && !Canonical(drafts[j].severity) && Identity(text, drafts[j]) == key
    && forall k | 0 <= k < j :: Identity(text, drafts[k]) != key
  }

  /** Draft `i` would be stored, but an earlier draft of its identity, the first
      one, is not canonical. */
  predicate ShadowedAt(text: Text, dropped: set<string>, seen: set<string>, drafts: seq<Draft>, i: nat)
    requires i < |drafts|
  {
    var key := Identity(text, drafts[i]);
    && Canonical(drafts[i].severity) && key !in seen
    && (key in dropped
        || exists j | 0 <= j < i :: BadFirst(text, drafts, key, j))
  }

  predicate Shadowed(text: Text, dropped: set<string>, seen: set<string>, drafts: seq<Draft>) {
    exists i | 0 <= i < |drafts| :: ShadowedAt(text, dropped, seen, drafts, i)
  }

  lemma {:induction false} DedupAvoids(text: Text, dropped: set<string>, drafts: seq<Draft>)
    ensures forall d | d in Dedup(text, dropped, drafts) :: Identity(text, d) !in dropped
    decreases |drafts|
  {
    if drafts != [] {
      DedupAvoids(text, dropped, drafts[1..]);
      DedupAvoids(text, dropped + {Identity(text, drafts[0])}, drafts[1..]);
    }
  }

  /** The same, following the two scans: the first draft that they treat differently. */
  predicate Hidden(text: Text, dropped: set<string>, seen: set<string>, drafts: seq<Draft>)
    decreases |drafts|
  {
    drafts != [] &&
    var key, fits := Identity(text, drafts[0]), Canonical(drafts[0].severity);
    if key in dropped then (fits && key !in seen) || Hidden(text, dropped, seen, drafts[1..])
    else Hidden(text, dropped + {key}, if fits then seen + {key} else seen, drafts[1..])
  }

  lemma {:induction false} DedupChangesIfHidden(text: Text, dropped: set<string>, seen: set<string>, drafts: seq<Draft>)
    ensures Fresh(text, seen, Dedup(text, dropped, drafts)) == Fresh(text, seen, drafts)
            <==> !Hidden(text, dropped, seen, drafts)
    decreases |drafts|
  {
    if drafts != [] {
      var key, fits, rest := Identity(text, drafts[0]), Canonical(drafts[0].severity), drafts[1..];
      if key in dropped {
        DedupChangesIfHidden(text, dropped, seen, rest);
        if fits && key !in seen {
          DedupAvoids(text, dropped, drafts);
          FreshRows(text, seen, Dedup(text, dropped, drafts));
          assert Fresh(text, seen, drafts)[0] == drafts[0];
        }
      } else {
        var kept := Dedup(text, dropped + {key}, rest);
        assert ([drafts[0]] + kept)[1..] == kept;
        DedupChangesIfHidden(text, dropped + {key}, if fits then seen + {key} else seen, rest);
        if fits && key in seen {
          assert seen + {key} == seen;
        } else if fits {
          assert Fresh(text, seen, drafts)[1..] == Fresh(text, seen + {key}, rest);
          assert Fresh(text, seen, [drafts[0]] + kept)[1..] == Fresh(text, seen + {key}, kept);
        }
      }
    }
  }

  lemma ShadowedLater(text: Text, dropped: set<string>, seen: set<string>, drafts: seq<Draft>, i: nat)
    requires 0 < i < |drafts|
    ensures var key, fits := Identity(text, drafts[0]), Canonical(drafts[0].severity);
            ShadowedAt(text, dropped, seen, drafts, i)
            <==> if key in dropped then
                   ShadowedAt(text, dropped, seen, drafts[1..], i - 1)
                 else
                   ShadowedAt(text, dropped + {key}, if fits then seen + {key} else seen, drafts[1..], i - 1)
  {
    var rest, head, key := drafts[1..], Identity(text, drafts[0]), Identity(text, drafts[i]);
    if head != key {
      FirstLater(text, drafts, i);
    } else {
      assert BadFirst(text, drafts, key, 0) <==> !Canonical(drafts[0].severity);
      assert forall j | 0 < j < i :: !BadFirst(text, drafts, key, j);
    }
  }

  lemma FirstLater(text: Text, drafts: seq<Draft>, i: nat)
    requires 0 < i < |drafts| && Identity(text, drafts[0]) != Identity(text, drafts[i])
    ensures (exists j | 0 <= j < i :: BadFirst(text, drafts, Identity(text, drafts[i]), j))
            <==> exists j | 0 <= j < i - 1 :: BadFirst(text, drafts[1..], Identity(text, drafts[i]), j)
  {
    var key, rest := Identity(text, drafts[i]), drafts[1..];
    forall j | 0 <= j < i - 1 ensures BadFirst(text, drafts, key, j + 1) <==> BadFirst(text, rest, key, j) {
      assert forall k | 0 <= k < j :: rest[k] == drafts[k + 1];
    }
    if j :| 0 <= j < i && BadFirst(text, drafts, key, j) {
      assert BadFirst(text, rest, key, j - 1);
    }
  }

  lemma {:induction false} HiddenIffShadowed(text: Text, dropped: set<string>, seen: set<string>, drafts: seq<Draft>)
    ensures Hidden(text, dropped, seen, drafts) <==> Shadowed(text, dropped, seen, drafts)
    decreases |drafts|
  {
    if drafts != [] {
      var key, fits, rest := Identity(text, drafts[0]), Canonical(drafts[0].severity), drafts[1..];
      var dropped' := if key in dropped then dropped else dropped + {key};
      var seen' := if fits && key !in dropped then seen + {key} else seen;
      HiddenIffShadowed(text, dropped', seen', rest);
      forall i | 0 < i < |drafts|
        ensures ShadowedAt(text, dropped, seen, drafts, i) <==> ShadowedAt(text, dropped', seen', rest, i - 1)
      {
        ShadowedLater(text, dropped, seen, drafts, i);
      }
      ShiftShadow(text, dropped, seen, drafts, dropped', seen');
    }
  }

  lemma ShiftShadow(text: Text, dropped: set<string>, seen: set<string>, drafts: seq<Draft>,
                    dropped': set<string>, seen': set<string>)
    requires drafts != []
    requires forall i | 0 < i < |drafts| ::
               ShadowedAt(text, dropped, seen, drafts, i) <==> ShadowedAt(text, dropped', seen', drafts[1..], i - 1)
    ensures Shadowed(text, dropped, seen, drafts)
            <==> ShadowedAt(text, dropped, seen, drafts, 0) || Shadowed(text, dropped', seen', drafts[1..])
  {
    if i :| 0 <= i < |drafts| - 1 && ShadowedAt(text, dropped', seen', drafts[1..], i) {
      assert ShadowedAt(text, dropped, seen, drafts, i + 1);
    }
  }

  /** Deduplicating first stores exactly what the insert alone would, if and only if
      no storable draft comes after a first draft of its identity that is not
      canonical. */
  lemma DedupIsInvisibleIff(text: Text, rows: seq<Draft>, drafts: seq<Draft>)
    ensures Upserted(text, rows, Dedup(text, {}, drafts)) == Upserted(text, rows, drafts)
            <==> !Shadowed(text, {}, Ids(text, rows), drafts)
  {
    var a, b := Fresh(text, Ids(text, rows), Dedup(text, {}, drafts)), Fresh(text, Ids(text, rows), drafts);
    assert (rows + a)[|rows|..] == a && (rows + b)[|rows|..] == b;
    DedupChangesIfHidden(text, {}, Ids(text, rows), drafts);
    HiddenIffShadowed(text, {}, Ids(text, rows), drafts);
  }

  /** So it is invisible for drafts with canonical severities. */
  lemma DedupIsInvisible(text: Text, rows: seq<Draft>, drafts: seq<Draft>)
    requires forall d | d in drafts :: Canonical(d.severity)
    ensures Upserted(text, rows, Dedup(text, {}, drafts)) == Upserted(text, rows, drafts)
  {
    DedupIsInvisibleIff(text, rows, drafts);
  }

  /** A non-canonical first draft hides a storable second one. */
  lemma DedupCanLoseAFinding(text: Text, bad: Draft, good: Draft)
    requires !Canonical(bad.severity) && Canonical(good.severity) && Identity(text, bad) == Identity(text, good)
    ensures Upserted(text, [], Dedup(text, {}, [bad, good])) == [] && Upserted(text, [], [bad, good]) == [good]
  {
    var key, none: seq<Draft> := Identity(text, bad), [];
    assert Ids(text, none) == {} && none + none == none && none + [good] == [good];
    assert [bad, good][1..] == [good] && [good][1..] == none && [bad][1..] == none;
    assert Dedup(text, {key}, [good]) == none;
    assert Dedup(text, {}, [bad, good]) == [bad] by {
      assert {} + {key} == {key} && [bad] + none == [bad];
    }
    assert Fresh(text, {}, [bad]) == none;
    assert Fresh(text, {}, [good]) == [good] + Fresh(text, {} + {key}, none);
  }

  // ---- Extraction ----

  /** One NSE script of a report: whether its output says VULNERABLE, and the CVE
      identifier and the score the patterns find in it. */
  datatype Script = Script(id: string, output: string, vulnerable: bool, cve: Option<string>, cvss: Option<real>)

  datatype Port = Port(number: string, protocol: string, scripts: seq<Script>)

  datatype Host = Host(addresses: seq<string>, scripts: seq<Script>, ports: seq<Port>)

  function Severity(score: Option<real>): string {
    if score.None? then "medium"
    else if score.value >= 9.0 then "critical"
    else if score.value >= 7.0 then "high"
    else if score.value >= 4.0 then "medium"
    else if score.value > 0.0 then "low"
    else "info"
  }

  /** One decimal, half to even. */
  function RoundTenth(x: real): real {
    var tenths := (x * 10.0).Floor;
    var rest := x * 10.0 - tenths as real;
    if rest < 0.5 || (rest == 0.5 && tenths % 2 == 0) then tenths as real / 10.0 else (tenths + 1) as real / 10.0
  }

  function Clamp(x: real): real {
    var floored := if x > 0.0 then x else 0.0;
    if floored < 10.0 then floored else 10.0
  }

  function Score(script: Script): Option<real> {
    if script.cvss.Some? then Some(RoundTenth(Clamp(script.cvss.value))) else None
  }

  function Rank(severity: string): int {
    if severity == "critical" then 4 else if severity == "high" then 3
    else if severity == "medium" then 2 else if severity == "low" then 1 else 0
  }

  /** Stored scores stay in range and within rounding of the reported one, and a
      higher report never gets a lower severity. */
  lemma ScoresAreFair(a: Script, b: Script)
    requires a.cvss.Some? && b.cvss.Some?
    ensures 0.0 <= Score(a).value <= 10.0
    ensures 0.0 <= a.cvss.value <= 10.0 ==> -0.05 <= Score(a).value - a.cvss.value <= 0.05
    ensures a.cvss.value <= b.cvss.value ==>
              Score(a).value <= Score(b).value && Rank(Severity(Score(a))) <= Rank(Severity(Score(b)))
  {
    if a.cvss.value <= b.cvss.value {
      RoundIsMonotone(Clamp(a.cvss.value), Clamp(b.cvss.value));
    }
    RoundIsMonotone(0.0, Clamp(a.cvss.value));
    RoundIsMonotone(Clamp(a.cvss.value), 10.0);
  }

  lemma RoundIsMonotone(x: real, y: real)
    requires x <= y
    ensures RoundTenth(x) <= RoundTenth(y) && -0.05 <= RoundTenth(x) - x <= 0.05
    ensures RoundTenth(0.0) == 0.0 && RoundTenth(10.0) == 10.0
  {
    var a, b := (x * 10.0).Floor, (y * 10.0).Floor;
    assert a <= b;
    assert (0.0 * 10.0).Floor == 0 && (10.0 * 10.0).Floor == 100;
  }

  function Cut(s: string, n: nat): string {
    if |s| <= n then s else s[..n]
  }

  function DraftOf(address: string, script: Script, port: Option<string>, protocol: Option<string>): Draft {
    var suffix := if port.Some? && protocol.Some? then ":" + port.value + "/" + protocol.value else "";
    Draft(Cut(script.id + " on " + address + suffix, 255), Cut(script.output, 8000), Severity(Score(script)),
          if script.cve.Some? then Some(Cut(script.cve.value, 50)) else None, Score(script),
          map["source" := Some("nmap"), "script_id" := Some(script.id), "host" := Some(address),
              "port" := port, "protocol" := protocol,
              "severity_source" := Some(if Score(script).Some? then "cvss" else "default")])
  }

  function FromScripts(address: string, scripts: seq<Script>, port: Option<string>, protocol: Option<string>): seq<Draft> {
    if scripts == [] then []
    else
      (if scripts[0].vulnerable then [DraftOf(address, scripts[0], port, protocol)] else [])
      + FromScripts(address, scripts[1..], port, protocol)
  }

  function FromPorts(address: string, ports: seq<Port>): seq<Draft> {
    if ports == [] then []
    else
      FromScripts(address, ports[0].scripts, Some(ports[0].number), Some(ports[0].protocol)) + FromPorts(address, ports[1..])
  }

  function Address(host: Host): string {
    if host.addresses == [] then "unknown" else host.addresses[0]
  }

  /** `extract_findings`. */
  function Extracted(hosts: seq<Host>): seq<Draft> {
    if hosts == [] then []
    else
      FromScripts(Address(hosts[0]), hosts[0].scripts, None, None)
      + FromPorts(Address(hosts[0]), hosts[0].ports) + Extracted(hosts[1..])
  }

  lemma FromScriptsStep(address: string, scripts: seq<Script>, n: nat, port: Option<string>, protocol: Option<string>)
    requires n < |scripts|
    ensures FromScripts(address, scripts[n..], port, protocol)
            == (if scripts[n].vulnerable then [DraftOf(address, scripts[n], port, protocol)] else [])
               + FromScripts(address, scripts[n + 1..], port, protocol)
  {
    assert scripts[n..][1..] == scripts[n + 1..];
  }

  method ExtractScripts(address: string, scripts: seq<Script>, port: Option<string>, protocol: Option<string>)
    returns (findings: seq<Draft>)
    ensures findings == FromScripts(address, scripts, port, protocol)
  {
    findings := [];
    for i := 0 to |scripts|
      invariant findings + FromScripts(address, scripts[i..], port, protocol)
             == FromScripts(address, scripts, port, protocol)
    {
      FromScriptsStep(address, scripts, i, port, protocol);
      if scripts[i].vulnerable {
        var found := DraftOf(address, scripts[i], port, protocol);
        Regroup(findings, [found], FromScripts(address, scripts[i + 1..], port, protocol));
        findings := findings + [found];
      } else {
        assert [] + FromScripts(address, scripts[i + 1..], port, protocol) == FromScripts(address, scripts[i + 1..], port, protocol);
      }
    }
    assert findings + FromScripts(address, scripts[|scripts|..], port, protocol) == findings;
  }

  lemma FromPortsStep(address: string, ports: seq<Port>, n: nat)
    requires n < |ports|
    ensures FromPorts(address, ports[n..])
            == FromScripts(address, ports[n].scripts, Some(ports[n].number), Some(ports[n].protocol))
               + FromPorts(address, ports[n + 1..])
  {
    assert ports[n..][1..] == ports[n + 1..];
  }

  method ExtractPorts(address: string, ports: seq<Port>) returns (findings: seq<Draft>)
    ensures findings == FromPorts(address, ports)
  {
    findings := [];
    for i := 0 to |ports|
      invariant findings + FromPorts(address, ports[i..]) == FromPorts(address, ports)
    {
      var found := ExtractScripts(address, ports[i].scripts, Some(ports[i].number), Some(ports[i].protocol));
      FromPortsStep(address, ports, i);
      Regroup(findings, found, FromPorts(address, ports[i + 1..]));
      findings := findings + found;
    }
    assert findings + FromPorts(address, ports[|ports|..]) == findings;
  }

  lemma Regroup(a: seq<Draft>, b: seq<Draft>, c: seq<Draft>)
    ensures (a + b) + c == a + (b + c)
  {
  }

  lemma ExtractedStep(hosts: seq<Host>, n: nat)
    requires n < |hosts|
    ensures Extracted(hosts[n..])
            == (FromScripts(Address(hosts[n]), hosts[n].scripts, None, None)
                + FromPorts(Address(hosts[n]), hosts[n].ports)) + Extracted(hosts[n + 1..])
  {
    assert hosts[n..][1..] == hosts[n + 1..];
  }

  /** `extract_findings`: hosts in order, for each its own scripts before those of
      its ports. */
  method ExtractFindings(hosts: seq<Host>) returns (findings: seq<Draft>)
    ensures findings == Extracted(hosts)
  {
    findings := [];
    for i := 0 to |hosts|
      invariant findings + Extracted(hosts[i..]) == Extracted(hosts)
    {
      var own := ExtractScripts(Address(hosts[i]), hosts[i].scripts, None, None);
      var onPorts := ExtractPorts(Address(hosts[i]), hosts[i].ports);
      ExtractedStep(hosts, i);
      Regroup(findings, own + onPorts, Extracted(hosts[i + 1..]));
      findings := findings + (own + onPorts);
    }
    assert findings + Extracted(hosts[|hosts|..]) == findings;
  }

  lemma {:induction false} ExtractedMore(hosts: seq<Host>, more: seq<Host>)
    ensures Extracted(hosts + more) == Extracted(hosts) + Extracted(more)
  {
    if hosts == [] {
      assert hosts + more == more;
    } else {
      assert (hosts + more)[1..] == hosts[1..] + more;
      ExtractedMore(hosts[1..], more);
    }
  }

  function AllHosts(reports: seq<Result<seq<Host>, string>>): seq<Host> {
    if reports == [] then []
    else (if reports[0].Ok? then reports[0].value else []) + AllHosts(reports[1..])
  }

  lemma {:induction false} AllHostsMore(reports: seq<Result<seq<Host>, string>>, n: nat)
    requires n < |reports| && reports[n].Ok?
    ensures AllHosts(reports[..n + 1]) == AllHosts(reports[..n]) + reports[n].value
    decreases n
  {
    if n == 0 {
      assert reports[..1] == [reports[0]] && reports[..1][1..] == [];
    } else {
      assert reports[1..][..n] == reports[..n + 1][1..] && reports[1..][..n - 1] == reports[..n][1..];
      AllHostsMore(reports[1..], n - 1);
    }
  }

  /** `parse_node`, given what the parser makes of each document: the first failure
      is the result, otherwise the findings of all reports in order. */
  method ParseNode(reports: seq<Result<seq<Host>, string>>) returns (r: Result<seq<Draft>, string>)
    ensures r.Ok? <==> forall i | 0 <= i < |reports| :: reports[i].Ok?
    ensures r.Ok? ==> r.value == Extracted(AllHosts(reports))
    ensures r.Err? ==> exists i | 0 <= i < |reports| ::
              reports[i] == Err(r.error) && forall j | 0 <= j < i :: reports[j].Ok?
  {
    var drafts: seq<Draft> := [];
    for i := 0 to |reports|
      invariant forall j | 0 <= j < i :: reports[j].Ok?
      invariant drafts == Extracted(AllHosts(reports[..i]))
    {
      if reports[i].Err? {
        return Err(reports[i].error);
      }
      var found := ExtractFindings(reports[i].value);
      AllHostsMore(reports, i);
      ExtractedMore(AllHosts(reports[..i]), reports[i].value);
      drafts := drafts + found;
    }
    assert reports[..|reports|] == reports;
    r := Ok(drafts);
  }

  /** Where in a report a finding comes from. */
  datatype Origin = Origin(address: string, script: Script, port: Option<string>, protocol: Option<string>)

  function FoundAt(o: Origin): Draft {
    DraftOf(o.address, o.script, o.port, o.protocol)
  }

  function CveText(script: Script): string {
    if script.cve.Some? then Cut(script.cve.value, 50) else ""
  }

  function Given(value: Option<string>): string {
    if value.Some? then value.value else ""
  }

  predicate SamePlace(text: Text, a: Origin, b: Origin) {
    && text.lower(text.strip(a.script.id)) == text.lower(text.strip(b.script.id))
    && text.lower(text.strip(a.address)) == text.lower(text.strip(b.address))
    && text.strip(Given(a.port)) == text.strip(Given(b.port))
    && text.lower(text.strip(Given(a.protocol))) == text.lower(text.strip(Given(b.protocol)))
    && text.upper(text.strip(CveText(a.script))) == text.upper(text.strip(CveText(b.script)))
  }

  /** A script name or an address remains after stripping, and no part holds the separator. */
  predicate HasSurface(text: Text, o: Origin) {
    && (text.lower(text.strip(o.script.id)) != "" || text.lower(text.strip(o.address)) != "")
    && forall i | 0 <= i < 5 :: '|' !in Parts(text, FoundAt(o))[i]
  }

  /** Two extracted findings share an identity exactly if script, address, port,
      protocol and CVE agree, up to blanks and case, however their outputs, scores
      and titles differ. */
  lemma ExtractedShareIdentityIff(text: Text, a: Origin, b: Origin)
    requires HasSurface(text, a) && HasSurface(text, b) && text.strip("") == "" && text.lower("") == ""
    ensures Identity(text, FoundAt(a)) == Identity(text, FoundAt(b)) <==> SamePlace(text, a, b)
  {
    var p, q := Parts(text, FoundAt(a)), Parts(text, FoundAt(b));
    assert p[0] != "" || p[1] != "";
    assert q[0] != "" || q[1] != "";
    IdentityIsTheSurface(text, FoundAt(a), FoundAt(b));
    assert p == q <==> p[0] == q[0] && p[1] == q[1] && p[2] == q[2] && p[3] == q[3] && p[4] == q[4];
  }

  ghost predicate ComesFrom(hosts: seq<Host>, o: Origin) {
    exists h | h in hosts ::
      && o.address == Address(h)
      && ((o.script in h.scripts && o.port == None && o.protocol == None)
          || exists p | p in h.ports :: o.script in p.scripts && o.port == Some(p.number) && o.protocol == Some(p.protocol))
  }

  lemma {:induction false} ScriptOrigins(address: string, scripts: seq<Script>, port: Option<string>,
                                         protocol: Option<string>, d: Draft)
    ensures d in FromScripts(address, scripts, port, protocol)
            <==> exists x | x in scripts :: x.vulnerable && d == DraftOf(address, x, port, protocol)
  {
    if scripts != [] {
      ScriptOrigins(address, scripts[1..], port, protocol, d);
    }
  }

  lemma {:induction false} PortOrigins(address: string, ports: seq<Port>, d: Draft)
    ensures d in FromPorts(address, ports)
            <==> exists p, x | p in ports && x in p.scripts ::
                   x.vulnerable && d == DraftOf(address, x, Some(p.number), Some(p.protocol))
  {
    if ports != [] {
      ScriptOrigins(address, ports[0].scripts, Some(ports[0].number), Some(ports[0].protocol), d);
      PortOrigins(address, ports[1..], d);
    }
  }

  /** A draft is among the findings of a report exactly if it is that of one of its
      vulnerable scripts at its host and port; host scripts have no port. */
  lemma {:induction false} ExtractedOrigins(hosts: seq<Host>, d: Draft)
    ensures d in Extracted(hosts) <==> exists o :: ComesFrom(hosts, o) && o.script.vulnerable && d == FoundAt(o)
  {
    if hosts != [] {
      var h := hosts[0];
      ExtractedOrigins(hosts[1..], d);
      ScriptOrigins(Address(h), h.scripts, None, None, d);
      PortOrigins(Address(h), h.ports, d);
      HostOrigins(h, d);
      assert hosts == [h] + hosts[1..];
      forall o ensures ComesFrom(hosts, o) <==> ComesFrom([h], o) || ComesFrom(hosts[1..], o) {
        assert h in [h];
      }
    }
  }

  lemma HostOrigins(h: Host, d: Draft)
    ensures (exists o :: ComesFrom([h], o) && o.script.vulnerable && d == FoundAt(o))
            <==> d in FromScripts(Address(h), h.scripts, None, None) || d in FromPorts(Address(h), h.ports)
  {
    ScriptOrigins(Address(h), h.scripts, None, None, d);
    PortOrigins(Address(h), h.ports, d);
    assert h in [h];
    if d in FromScripts(Address(h), h.scripts, None, None) {
      var x :| x in h.scripts && x.vulnerable && d == DraftOf(Address(h), x, None, None);
      assert ComesFrom([h], Origin(Address(h), x, None, None));
      assert d == FoundAt(Origin(Address(h), x, None, None));
    }
    if d in FromPorts(Address(h), h.ports) {
      var p, x :| p in h.ports && x in p.scripts && x.vulnerable
                  && d == DraftOf(Address(h), x, Some(p.number), Some(p.protocol));
      assert ComesFrom([h], Origin(Address(h), x, Some(p.number), Some(p.protocol)));
      assert d == FoundAt(Origin(Address(h), x, Some(p.number), Some(p.protocol)));
    }
  }

  /** What every extracted draft satisfies. */
  predicate Storable(d: Draft) {
    && Canonical(d.severity) && |d.title| <= 255 && |d.description| <= 8000
    && (d.cve.Some? ==> |d.cve.value| <= 50) && (d.score.Some? ==> 0.0 <= d.score.value <= 10.0)
  }

  lemma {:induction false} ScriptsAreStorable(address: string, scripts: seq<Script>, port: Option<string>,
                                              protocol: Option<string>)
    ensures forall d | d in FromScripts(address, scripts, port, protocol) :: Storable(d)
  {
    if scripts != [] {
      ScriptsAreStorable(address, scripts[1..], port, protocol);
      if scripts[0].cvss.Some? {
        ScoresAreFair(scripts[0], scripts[0]);
      }
      assert Storable(DraftOf(address, scripts[0], port, protocol));
    }
  }

  lemma {:induction false} PortsAreStorable(address: string, ports: seq<Port>)
    ensures forall d | d in FromPorts(address, ports) :: Storable(d)
  {
    if ports != [] {
      ScriptsAreStorable(address, ports[0].scripts, Some(ports[0].number), Some(ports[0].protocol));
      PortsAreStorable(address, ports[1..]);
    }
  }

  lemma {:induction false} ExtractedAreStorable(hosts: seq<Host>)
    ensures forall d | d in Extracted(hosts) :: Storable(d)
  {
    if hosts != [] {
      ScriptsAreStorable(Address(hosts[0]), hosts[0].scripts, None, None);
      PortsAreStorable(Address(hosts[0]), hosts[0].ports);
      ExtractedAreStorable(hosts[1..]);
    }
  }

  /** The scan pipeline: what a report contributes is the same with and without the
      deduplication node. */
  lemma PipelineStoresWhatUpsertWould(text: Text, rows: seq<Draft>, hosts: seq<Host>)
    ensures Upserted(text, rows, Dedup(text, {}, Extracted(hosts))) == Upserted(text, rows, Extracted(hosts))
  {
    ExtractedAreStorable(hosts);
    DedupIsInvisible(text, rows, Extracted(hosts));
  }
}
