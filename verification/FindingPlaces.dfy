/** Which script of a report becomes which finding, and which draft which row,
    position by position (app/modules/scans/nmap/findings.py,
    app/modules/vulnerabilities/service.py). */
module FindingPlaces {
  import opened Wrappers
  import opened Findings

  // ---- One finding ----

  /** The finding of a script, field by field. */
  lemma DraftInFull(o: Origin)
    ensures var d := FoundAt(o);
            var title := o.script.id + " on " + o.address
                         + if o.port.Some? && o.protocol.Some? then ":" + o.port.value + "/" + o.protocol.value else "";
            && d.title == (if |title| > 255 then title[..255] else title)
            && d.description == (if |o.script.output| > 8000 then o.script.output[..8000] else o.script.output)
            && d.score == Score(o.script) && d.severity == Severity(d.score)
            && (d.cve.Some? <==> o.script.cve.Some?)
            && (d.cve.Some? ==> d.cve.value == if |o.script.cve.value| > 50 then o.script.cve.value[..50] else o.script.cve.value)
            && d.metadata == map["source" := Some("nmap"), "script_id" := Some(o.script.id), "host" := Some(o.address),
                                 "port" := o.port, "protocol" := o.protocol,
                                 "severity_source" := Some(if d.score.None? then "default" else "cvss")]
  {
  }

  /** The score is the reported one, moved into the range from 0 to 10, to one decimal;
      halfway between two it goes to the even one. */
  lemma ScoreIsNearest(script: Script)
    requires script.cvss.Some?
    ensures var x := script.cvss.value;
            var inside := if x <= 0.0 then 0.0 else if x >= 10.0 then 10.0 else x;
            exists n: int :: && Score(script) == Some(n as real / 10.0)
                             && -0.5 <= inside * 10.0 - n as real <= 0.5
                             && (inside * 10.0 - n as real == 0.5 || inside * 10.0 - n as real == -0.5 ==> n % 2 == 0)
  {
    var x := script.cvss.value;
    var inside := if x <= 0.0 then 0.0 else if x >= 10.0 then 10.0 else x;
    assert inside == Clamp(x);
    var n := NearestTenth(inside);
    assert Score(script) == Some(n as real / 10.0);
  }

  lemma NearestTenth(x: real) returns (n: int)
    ensures RoundTenth(x) == n as real / 10.0 && -0.5 <= x * 10.0 - n as real <= 0.5
    ensures x * 10.0 - n as real == 0.5 || x * 10.0 - n as real == -0.5 ==> n % 2 == 0
  {
    var tenths := (x * 10.0).Floor;
    var rest := x * 10.0 - tenths as real;
    n := if rest < 0.5 || (rest == 0.5 && tenths % 2 == 0) then tenths else tenths + 1;
  }

  /** The thresholds; no score counts as medium. */
  lemma SeverityBands(score: Option<real>)
    ensures Severity(score) == "critical" <==> score.Some? && score.value >= 9.0
    ensures Severity(score) == "high" <==> score.Some? && 7.0 <= score.value < 9.0
    ensures Severity(score) == "medium" <==> score.None? || 4.0 <= score.value < 7.0
    ensures Severity(score) == "low" <==> score.Some? && 0.0 < score.value < 4.0
    ensures Severity(score) == "info" <==> score.Some? && score.value <= 0.0
  {
    assert "critical" != "high" && "medium" != "high" && "low" != "info";
    assert |"critical"| == 8 && |"medium"| == 6 && |"low"| == 3 && |"high"| == 4 && |"info"| == 4;
  }

  /** The identity, written out: script, address, port, protocol and CVE between bars;
      the title if all of them are empty. */
  lemma IdentityInFull(text: Text, d: Draft)
    ensures var script, host := text.lower(Field(text, d, "script_id")), text.lower(Field(text, d, "host"));
            var port, protocol := Field(text, d, "port"), text.lower(Field(text, d, "protocol"));
            var cve := text.upper(text.strip(if d.cve.Some? then d.cve.value else ""));
            Identity(text, d)
            == if script == "" && host == "" && port == "" && protocol == "" && cve == "" then text.lower(text.strip(d.title))
               else script + "|" + (host + "|" + (port + "|" + (protocol + "|" + cve)))
    ensures forall name :: Field(text, d, name) == if name in d.metadata && d.metadata[name].Some?
                                                    then text.strip(d.metadata[name].value) else ""
  {
    var p := Parts(text, d);
    assert p[1..] == [p[1], p[2], p[3], p[4]] && p[1..][1..] == [p[2], p[3], p[4]];
    assert p[1..][1..][1..] == [p[3], p[4]] && p[1..][1..][1..][1..] == [p[4]];
    assert (forall i | 0 <= i < 5 :: p[i] == "") <==> p[0] == "" && p[1] == "" && p[2] == "" && p[3] == "" && p[4] == "";
    if !(forall i | 0 <= i < 5 :: p[i] == "") {
      BarsBetween(p);
    }
  }

  lemma BarsBetween(p: seq<string>)
    requires |p| == 5
    ensures JoinBar(p) == p[0] + "|" + (p[1] + "|" + (p[2] + "|" + (p[3] + "|" + p[4])))
  {
    var p1, p2, p3, p4 := p[1..], p[2..], p[3..], p[4..];
    assert p1[1..] == p2 && p2[1..] == p3 && p3[1..] == p4;
    assert JoinBar(p4) == p[4];
    assert JoinBar(p3) == p[3] + "|" + JoinBar(p4);
    assert JoinBar(p2) == p[2] + "|" + JoinBar(p3);
    assert JoinBar(p1) == p[1] + "|" + JoinBar(p2);
  }

  // ---- The findings of a report, in order ----

  /** A script of a report: on port 0 it is one of the host's own, otherwise one of
      the port before that number. */
  datatype Place = Place(host: nat, port: nat, script: nat)

  predicate Earlier(a: Place, b: Place) {
    a.host < b.host || (a.host == b.host && (a.port < b.port || (a.port == b.port && a.script < b.script)))
  }

  function ScriptsAt(host: Host, port: nat): seq<Script> {
    if port == 0 then host.scripts else if port <= |host.ports| then host.ports[port - 1].scripts else []
  }

  predicate Vulnerable(hosts: seq<Host>, a: Place) {
    a.host < |hosts| && a.script < |ScriptsAt(hosts[a.host], a.port)|
    && ScriptsAt(hosts[a.host], a.port)[a.script].vulnerable
  }

  function FindingAt(hosts: seq<Host>, a: Place): Draft
    requires Vulnerable(hosts, a)
  {
    var host := hosts[a.host];
    FoundAt(Origin(if |host.addresses| > 0 then host.addresses[0] else "unknown", ScriptsAt(host, a.port)[a.script],
                   if a.port == 0 then None else Some(host.ports[a.port - 1].number),
                   if a.port == 0 then None else Some(host.ports[a.port - 1].protocol)))
  }

  /** These places, in order, are where these findings come from. */
  ghost predicate Lists(hosts: seq<Host>, places: seq<Place>, findings: seq<Draft>) {
    && |places| == |findings|
    && (forall i | 0 <= i < |places| :: Vulnerable(hosts, places[i]) && findings[i] == FindingAt(hosts, places[i]))
    && (forall i, j | 0 <= i < j < |places| :: Earlier(places[i], places[j]))
  }

  lemma ListsJoin(hosts: seq<Host>, a: seq<Place>, b: seq<Place>, x: seq<Draft>, y: seq<Draft>)
    requires Lists(hosts, a, x) && Lists(hosts, b, y)
    requires forall i, j | 0 <= i < |a| && 0 <= j < |b| :: Earlier(a[i], b[j])
    ensures Lists(hosts, a + b, x + y)
  {
    var c, z := a + b, x + y;
    forall i | 0 <= i < |c| ensures Vulnerable(hosts, c[i]) && z[i] == FindingAt(hosts, c[i]) {
      assert if i < |a| then c[i] == a[i] && z[i] == x[i] else c[i] == b[i - |a|] && z[i] == y[i - |a|];
    }
    forall i, j | 0 <= i < j < |c| ensures Earlier(c[i], c[j]) {
      assert i < |a| ==> c[i] == a[i];
      assert j < |a| ==> c[j] == a[j];
      assert i >= |a| ==> c[i] == b[i - |a|];
      assert j >= |a| ==> c[j] == b[j - |a|];
    }
  }

  lemma {:induction false} ScriptPlaces(hosts: seq<Host>, h: nat, p: nat, n: nat, port: Option<string>, protocol: Option<string>)
    returns (places: seq<Place>)
    requires h < |hosts| && p <= |hosts[h].ports| && n <= |ScriptsAt(hosts[h], p)|
    requires port == if p == 0 then None else Some(hosts[h].ports[p - 1].number)
    requires protocol == if p == 0 then None else Some(hosts[h].ports[p - 1].protocol)
    ensures Lists(hosts, places, FromScripts(Address(hosts[h]), ScriptsAt(hosts[h], p)[n..], port, protocol))
    ensures forall a :: a in places <==> a.host == h && a.port == p && a.script >= n && Vulnerable(hosts, a)
    decreases |ScriptsAt(hosts[h], p)| - n
  {
    var scripts, address := ScriptsAt(hosts[h], p), Address(hosts[h]);
    if n == |scripts| {
      places := [];
    } else {
      var rest := ScriptPlaces(hosts, h, p, n + 1, port, protocol);
      FromScriptsStep(address, scripts, n, port, protocol);
      var here := Place(h, p, n);
      places := if scripts[n].vulnerable then [here] + rest else rest;
      if scripts[n].vulnerable {
        SameFinding(hosts, here, port, protocol);
        ListsMore(hosts, here, rest, DraftOf(address, scripts[n], port, protocol),
                  FromScripts(address, scripts[n + 1..], port, protocol));
      } else {
        assert [] + FromScripts(address, scripts[n + 1..], port, protocol) == FromScripts(address, scripts[n + 1..], port, protocol);
      }
      PlacesHere(hosts, h, p, n, places, rest);
    }
  }

  lemma SameFinding(hosts: seq<Host>, a: Place, port: Option<string>, protocol: Option<string>)
    requires Vulnerable(hosts, a)
    requires port == if a.port == 0 then None else Some(hosts[a.host].ports[a.port - 1].number)
    requires protocol == if a.port == 0 then None else Some(hosts[a.host].ports[a.port - 1].protocol)
    ensures DraftOf(Address(hosts[a.host]), ScriptsAt(hosts[a.host], a.port)[a.script], port, protocol) == FindingAt(hosts, a)
  {
  }

  lemma ListsMore(hosts: seq<Host>, here: Place, rest: seq<Place>, finding: Draft, findings: seq<Draft>)
    requires Vulnerable(hosts, here) && finding == FindingAt(hosts, here) && Lists(hosts, rest, findings)
    requires forall a | a in rest :: Earlier(here, a)
    ensures Lists(hosts, [here] + rest, [finding] + findings)
  {
    var first, found := [here], [finding];
    assert Lists(hosts, first, found);
    forall j | 0 <= j < |rest| ensures Earlier(here, rest[j]) {
      assert rest[j] in rest;
    }
    ListsJoin(hosts, first, rest, found, findings);
  }

  lemma PlacesHere(hosts: seq<Host>, h: nat, p: nat, n: nat, places: seq<Place>, rest: seq<Place>)
    requires h < |hosts| && n < |ScriptsAt(hosts[h], p)|
    requires places == if ScriptsAt(hosts[h], p)[n].vulnerable then [Place(h, p, n)] + rest else rest
    requires forall a :: a in rest <==> a.host == h && a.port == p && a.script >= n + 1 && Vulnerable(hosts, a)
    ensures forall a :: a in places <==> a.host == h && a.port == p && a.script >= n && Vulnerable(hosts, a)
  {
    var here := Place(h, p, n);
    assert Vulnerable(hosts, here) <==> ScriptsAt(hosts[h], p)[n].vulnerable;
    forall a ensures a in places <==> a in rest || (a == here && Vulnerable(hosts, here)) {
    }
  }

  lemma {:induction false} PortPlaces(hosts: seq<Host>, h: nat, n: nat) returns (places: seq<Place>)
    requires h < |hosts| && n <= |hosts[h].ports|
    ensures Lists(hosts, places, FromPorts(Address(hosts[h]), hosts[h].ports[n..]))
    ensures forall a :: a in places <==> a.host == h && a.port > n && Vulnerable(hosts, a)
    decreases |hosts[h].ports| - n
  {
    var ports := hosts[h].ports;
    if n == |ports| {
      places := [];
    } else {
      var first := ScriptPlaces(hosts, h, n + 1, 0, Some(ports[n].number), Some(ports[n].protocol));
      var rest := PortPlaces(hosts, h, n + 1);
      assert ScriptsAt(hosts[h], n + 1)[0..] == ports[n].scripts;
      FromPortsStep(Address(hosts[h]), ports, n);
      places := first + rest;
      ListsJoin(hosts, first, rest, FromScripts(Address(hosts[h]), ports[n].scripts, Some(ports[n].number), Some(ports[n].protocol)),
                FromPorts(Address(hosts[h]), ports[n + 1..]));
    }
  }

  lemma HostPlaces(hosts: seq<Host>, h: nat) returns (places: seq<Place>)
    requires h < |hosts|
    ensures Lists(hosts, places, FromScripts(Address(hosts[h]), hosts[h].scripts, None, None)
                                 + FromPorts(Address(hosts[h]), hosts[h].ports))
    ensures forall a :: a in places <==> a.host == h && Vulnerable(hosts, a)
  {
    var own := ScriptPlaces(hosts, h, 0, 0, None, None);
    var onPorts := PortPlaces(hosts, h, 0);
    assert ScriptsAt(hosts[h], 0)[0..] == hosts[h].scripts && hosts[h].ports[0..] == hosts[h].ports;
    places := own + onPorts;
    ListsJoin(hosts, own, onPorts, FromScripts(Address(hosts[h]), hosts[h].scripts, None, None),
              FromPorts(Address(hosts[h]), hosts[h].ports));
  }

  lemma {:induction false} PlacesFrom(hosts: seq<Host>, n: nat) returns (places: seq<Place>)
    requires n <= |hosts|
    ensures Lists(hosts, places, Extracted(hosts[n..]))
    ensures forall a :: a in places <==> a.host >= n && Vulnerable(hosts, a)
    decreases |hosts| - n
  {
    if n == |hosts| {
      places := [];
    } else {
      var here := HostPlaces(hosts, n);
      var rest := PlacesFrom(hosts, n + 1);
      ExtractedStep(hosts, n);
      places := here + rest;
      ListsJoin(hosts, here, rest, FromScripts(Address(hosts[n]), hosts[n].scripts, None, None)
                                   + FromPorts(Address(hosts[n]), hosts[n].ports), Extracted(hosts[n + 1..]));
    }
  }

  /** The findings of a report are those of its vulnerable scripts, each once, in the
      order of the hosts, for each its own scripts before those of its ports in order. */
  lemma ExtractedInOrder(hosts: seq<Host>)
    ensures exists places :: Lists(hosts, places, Extracted(hosts)) && forall a :: a in places <==> Vulnerable(hosts, a)
  {
    var places := PlacesFrom(hosts, 0);
    assert hosts[0..] == hosts;
    assert forall a :: a in places <==> Vulnerable(hosts, a);
  }

  // ---- The drafts that stay ----

  /** The drafts at these positions, in order. */
  ghost predicate Picks(drafts: seq<Draft>, at: seq<nat>, kept: seq<Draft>) {
    && |at| == |kept|
    && (forall i | 0 <= i < |at| :: at[i] < |drafts| && kept[i] == drafts[at[i]])
    && (forall i, j | 0 <= i < j < |at| :: at[i] < at[j])
  }

  /** No draft before `k` that fits has its identity. */
  predicate First(text: Text, drafts: seq<Draft>, k: nat, canonicalOnly: bool)
    requires k < |drafts|
  {
    forall j | 0 <= j < k ::
      Identity(text, drafts[j]) == Identity(text, drafts[k]) ==>
        canonicalOnly && drafts[j].severity !in {"critical", "high", "medium", "low", "info"}
  }

  function Shifted(at: seq<nat>): (r: seq<nat>)
    ensures |r| == |at| && forall i | 0 <= i < |at| :: r[i] == at[i] + 1
  {
    seq(|at|, i requires 0 <= i < |at| => at[i] + 1)
  }

  lemma PicksLater(drafts: seq<Draft>, at: seq<nat>, kept: seq<Draft>, taken: bool)
    requires drafts != [] && Picks(drafts[1..], at, kept)
    ensures Picks(drafts, (if taken then [0] else []) + Shifted(at), (if taken then [drafts[0]] else []) + kept)
    ensures var all := (if taken then [0] else []) + Shifted(at);
            forall k: nat :: k in all <==> (taken && k == 0) || (k > 0 && k - 1 in at)
  {
    var all := (if taken then [0] else []) + Shifted(at);
    forall k: nat ensures k in Shifted(at) <==> k > 0 && k - 1 in at {
      if k > 0 && k - 1 in at {
        var i :| 0 <= i < |at| && at[i] == k - 1;
        assert Shifted(at)[i] == k;
      }
    }
  }

  lemma FirstLaterIff(text: Text, drafts: seq<Draft>, k: nat, canonicalOnly: bool)
    requires 0 < k < |drafts|
    ensures First(text, drafts, k, canonicalOnly)
            <==> First(text, drafts[1..], k - 1, canonicalOnly)
                 && (Identity(text, drafts[0]) == Identity(text, drafts[k]) ==> canonicalOnly && !Canonical(drafts[0].severity))
  {
    assert drafts[1..][k - 1] == drafts[k];
    assert forall j | 0 <= j < k - 1 :: drafts[1..][j] == drafts[j + 1];
    assert forall j | 0 < j < k :: drafts[1..][j - 1] == drafts[j];
  }

  lemma {:induction false} FreshAt(text: Text, seen: set<string>, drafts: seq<Draft>) returns (at: seq<nat>)
    ensures Picks(drafts, at, Fresh(text, seen, drafts))
    ensures forall k: nat :: k in at <==>
              && k < |drafts| && Canonical(drafts[k].severity) && Identity(text, drafts[k]) !in seen
              && First(text, drafts, k, true)
    decreases |drafts|
  {
    if drafts == [] {
      at := [];
    } else {
      var key := Identity(text, drafts[0]);
      var taken := Canonical(drafts[0].severity) && key !in seen;
      var seen' := if taken then seen + {key} else seen;
      var later := FreshAt(text, seen', drafts[1..]);
      PicksLater(drafts, later, Fresh(text, seen', drafts[1..]), taken);
      at := (if taken then [0] else []) + Shifted(later);
      assert Fresh(text, seen, drafts) == (if taken then [drafts[0]] else []) + Fresh(text, seen', drafts[1..]);
      forall k: nat | 0 < k < |drafts|
        ensures k - 1 in later <==> Canonical(drafts[k].severity) && Identity(text, drafts[k]) !in seen
                                    && First(text, drafts, k, true)
      {
        FirstLaterIff(text, drafts, k, true);
        assert drafts[1..][k - 1] == drafts[k];
      }
    }
  }

  lemma {:induction false} DedupAt(text: Text, seen: set<string>, drafts: seq<Draft>) returns (at: seq<nat>)
    ensures Picks(drafts, at, Dedup(text, seen, drafts))
    ensures forall k: nat :: k in at <==> k < |drafts| && Identity(text, drafts[k]) !in seen && First(text, drafts, k, false)
    decreases |drafts|
  {
    if drafts == [] {
      at := [];
    } else {
      var key := Identity(text, drafts[0]);
      var taken := key !in seen;
      var seen' := if taken then seen + {key} else seen;
      var later := DedupAt(text, seen', drafts[1..]);
      PicksLater(drafts, later, Dedup(text, seen', drafts[1..]), taken);
      at := (if taken then [0] else []) + Shifted(later);
      assert Dedup(text, seen, drafts) == (if taken then [drafts[0]] else []) + Dedup(text, seen', drafts[1..]);
      forall k: nat | 0 < k < |drafts|
        ensures k - 1 in later <==> Identity(text, drafts[k]) !in seen && First(text, drafts, k, false)
      {
        FirstLaterIff(text, drafts, k, false);
        assert drafts[1..][k - 1] == drafts[k];
      }
    }
  }

  /** An insert appends, in their order, exactly the drafts with one of the five
      severities whose identity no stored row has and no such draft before them. */
  lemma InsertedInOrder(text: Text, rows: seq<Draft>, drafts: seq<Draft>)
    ensures exists at, added :: && Upserted(text, rows, drafts) == rows + added && Picks(drafts, at, added)
              && forall k: nat :: k in at <==>
                   && k < |drafts| && drafts[k].severity in {"critical", "high", "medium", "low", "info"}
                   && (forall row | row in rows :: Identity(text, row) != Identity(text, drafts[k]))
                   && First(text, drafts, k, true)
  {
    var seen := Ids(text, rows);
    var at := FreshAt(text, seen, drafts);
    var added := Fresh(text, seen, drafts);
    forall key ensures key in seen <==> !(forall row | row in rows :: Identity(text, row) != key) {
    }
    assert Upserted(text, rows, drafts) == rows + added && Picks(drafts, at, added);
  }

  /** The deduplication keeps, in their order, exactly the first draft of each identity. */
  lemma KeptInOrder(text: Text, drafts: seq<Draft>)
    ensures exists at :: Picks(drafts, at, Dedup(text, {}, drafts))
                         && forall k: nat :: k in at <==> k < |drafts| && First(text, drafts, k, false)
  {
    var at := DedupAt(text, {}, drafts);
  }
}
