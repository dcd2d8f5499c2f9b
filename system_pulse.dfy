/**
 * The status panel: a fixed catalog of services, a status map that starts
 * with every public service that has a URL as `checking`, and a check that
 * walks the catalog in order, dials each public service with a URL, and
 * publishes the whole map once at the end.
 *
 * A probe's outcome is a function of the URL dialled; the clock reading
 * stored as the time of the last check is a parameter.
 */
module SystemPulse {
  import opened Common
  import opened Json

  datatype Status = Online | Offline | Private | Checking

  /** A catalogue entry; `title` holds its `label` field, since `label` is a reserved word here. */
  datatype Service = Service(key: string, title: string, url: Option<string>, public: bool)

  const Services: seq<Service> := [
    Service("chetana", "Chetana", Some("https://chetana.activemirror.ai/api/health"), true),
    Service("beacon", "Beacon", None, true),
    Service("brain", "MirrorBrain", Some("https://brain.activemirror.ai/status"), true),
    Service("site", "activemirror.ai", Some("https://activemirror.ai"), true),
    Service("dashboard", "Dashboard", None, false),
    Service("factory", "Factory", None, false),
    Service("ollama", "Ollama (14 models)", None, false),
    Service("bus", "Memory Bus", None, false)
  ]

  /** This app's own key, which every check marks online. */
  const SelfKey: string := "beacon"

  /** `svc.url && svc.public`: a service the check actually fetches. */
  predicate Dialable(s: Service) {
    s.public && s.url.Some? && s.url.value != []
  }

  function InitialStatus(s: Service): (st: Status)
    ensures st == Checking <==> Dialable(s)
    ensures st == Private <==> !Dialable(s)
  {
    if s.public && s.url.Some? && s.url.value != [] then Checking else Private
  }

  /** `Object.fromEntries(catalog.map(...))`: a later entry with the same key replaces an earlier one. */
  function InitialStatuses(catalog: seq<Service>): map<string, Status>
  {
    if catalog == [] then map[]
    else InitialStatuses(catalog[..|catalog| - 1])[catalog[|catalog| - 1].key := InitialStatus(catalog[|catalog| - 1])]
  }

  /** One iteration of the loop: a service that is not dialled is `online` if public, else `private`. */
  function Resolve(s: Service, probe: string -> Response): (r: Status)
    ensures r == Private <==> !s.public
    ensures r == Offline <==> Dialable(s) && !probe(s.url.value).Ok?
    ensures r == Online <==> s.public && (!Dialable(s) || probe(s.url.value).Ok?)
  {
    if !Dialable(s) then (if s.public then Online else Private)
    else if probe(s.url.value).Ok? then Online
    else Offline
  }

  /** The loop over the catalog, writing each service's status into `results` in order. */
  function Assign(results: map<string, Status>, catalog: seq<Service>, probe: string -> Response): map<string, Status>
    decreases |catalog|
  {
    if catalog == [] then results
    else Assign(results[catalog[0].key := Resolve(catalog[0], probe)], catalog[1..], probe)
  }

  /** The map a check publishes: the loop's results, then this app forced online. */
  function CheckResult(catalog: seq<Service>, probe: string -> Response): map<string, Status> {
    Assign(InitialStatuses(catalog), catalog, probe)[SelfKey := Online]
  }

  /** The keys of a catalog. */
  function KeySet(catalog: seq<Service>): set<string> {
    set i | 0 <= i < |catalog| :: catalog[i].key
  }

  predicate DistinctKeys(catalog: seq<Service>) {
    forall i, j :: 0 <= i < j < |catalog| ==> catalog[i].key != catalog[j].key
  }

  /** The URLs fetched by a check, in order. */
  function DialledUrls(catalog: seq<Service>): (r: seq<string>)
    ensures |r| <= |catalog|
  {
    if catalog == [] then []
    else (if Dialable(catalog[0]) then [catalog[0].url.value] else []) + DialledUrls(catalog[1..])
  }

  function OnlineKeys(m: map<string, Status>): set<string> { set k | k in m && m[k] == Online }

  function PrivateKeys(m: map<string, Status>): set<string> { set k | k in m && m[k] == Private }

  /** `Object.values(statuses).filter(s => s === 'online').length`. */
  function OnlineCount(m: map<string, Status>): nat { |OnlineKeys(m)| }

  /** `Object.values(statuses).filter(s => s === 'private').length`. */
  function PrivateCount(m: map<string, Status>): nat { |PrivateKeys(m)| }

  class Pulse {
    var statuses: map<string, Status>
    /** The clock reading of the last completed check, `null` before the first. */
    var lastCheck: Option<int>

    constructor ()
      ensures statuses == InitialStatuses(Services) && lastCheck == None
    {
      statuses := InitialStatuses(Services);
      lastCheck := None;
    }

    /**
     * One check. The callback was created once, so `results` starts from the initial map, not from
     * the last published one; the services are probed one after another; the map and the clock
     * reading are published together after the loop.
     */
    method CheckServices(probe: string -> Response, now: int) returns (dialled: seq<string>)
      modifies this
      ensures statuses == CheckResult(Services, probe)
      ensures lastCheck == Some(now)
      ensures dialled == DialledUrls(Services)
    {
      var results;
      results, dialled := ProbeAll(Services, probe);
      results := results[SelfKey := Online];
      statuses := results;
      lastCheck := Some(now);
    }
  }

  /** The loop of a check: each service's status written into a copy of the initial map, in catalog order. */
  method ProbeAll(catalog: seq<Service>, probe: string -> Response) returns (results: map<string, Status>, dialled: seq<string>)
    ensures results == Assign(InitialStatuses(catalog), catalog, probe)
    ensures dialled == DialledUrls(catalog)
  {
    results := InitialStatuses(catalog);
    dialled := [];
    var i := 0;
    while i < |catalog|
      invariant 0 <= i <= |catalog|
      invariant Assign(results, catalog[i..], probe) == Assign(InitialStatuses(catalog), catalog, probe)
      invariant dialled + DialledUrls(catalog[i..]) == DialledUrls(catalog)
    {
      var svc := catalog[i];
      LoopStep(results, catalog, i, probe);
      var status, fetched := Probe(svc, probe);
      AppendAssoc(dialled, fetched, DialledUrls(catalog[i + 1..]));
      dialled := dialled + fetched;
      results := results[svc.key := status];
      i := i + 1;
    }
    assert catalog[i..] == [];
  }

  /** One turn of the loop: a service that is not dialled resolves at once; one that is, by its probe. */
  method Probe(svc: Service, probe: string -> Response) returns (status: Status, fetched: seq<string>)
    ensures status == Resolve(svc, probe)
    ensures fetched == if Dialable(svc) then [svc.url.value] else []
  {
    if svc.url.None? || svc.url.value == [] || !svc.public {
      status := if svc.public then Online else Private;
      fetched := [];
    } else {
      fetched := [svc.url.value];
      var res := probe(svc.url.value);
      status := if res.Ok? then Online else Offline;
    }
  }

  /** One turn of the loop, as the fold sees it. */
  lemma LoopStep(results: map<string, Status>, catalog: seq<Service>, i: nat, probe: string -> Response)
    requires i < |catalog|
    ensures Assign(results, catalog[i..], probe) == Assign(results[catalog[i].key := Resolve(catalog[i], probe)], catalog[i + 1..], probe)
    ensures DialledUrls(catalog[i..]) == (if Dialable(catalog[i]) then [catalog[i].url.value] else []) + DialledUrls(catalog[i + 1..])
  {
    assert catalog[i..][1..] == catalog[i + 1..];
  }

  // ---------------------------------------------------------------- properties

  /** After the loop every key it visited is present, and no other key was added. */
  lemma {:induction false} AssignKeys(results: map<string, Status>, catalog: seq<Service>, probe: string -> Response)
    ensures Assign(results, catalog, probe).Keys == results.Keys + KeySet(catalog)
    decreases |catalog|
  {
    if catalog != [] {
      var next := results[catalog[0].key := Resolve(catalog[0], probe)];
      AssignKeys(next, catalog[1..], probe);
      assert KeySet(catalog) == {catalog[0].key} + KeySet(catalog[1..]) by {
        forall k | k in KeySet(catalog) ensures k in {catalog[0].key} + KeySet(catalog[1..]) {
          var i :| 0 <= i < |catalog| && catalog[i].key == k;
          if i > 0 { assert catalog[1..][i - 1].key == k; }
        }
      }
    }
  }

  /** With distinct keys, the loop leaves each visited service's own resolution in place. */
  lemma {:induction false} AssignAt(results: map<string, Status>, catalog: seq<Service>, probe: string -> Response, i: nat)
    requires DistinctKeys(catalog) && i < |catalog|
    ensures catalog[i].key in Assign(results, catalog, probe)
    ensures Assign(results, catalog, probe)[catalog[i].key] == Resolve(catalog[i], probe)
    decreases |catalog|
  {
    var next := results[catalog[0].key := Resolve(catalog[0], probe)];
    if i == 0 {
      AssignUntouched(next, catalog[1..], probe, catalog[0].key);
    } else {
      assert catalog[1..][i - 1] == catalog[i];
      AssignAt(next, catalog[1..], probe, i - 1);
    }
  }

  /** A key the loop does not visit keeps its value. */
  lemma {:induction false} AssignUntouched(results: map<string, Status>, catalog: seq<Service>, probe: string -> Response, k: string)
    requires k in results && k !in KeySet(catalog)
    ensures k in Assign(results, catalog, probe) && Assign(results, catalog, probe)[k] == results[k]
    decreases |catalog|
  {
    if catalog != [] {
      assert catalog[0].key in KeySet(catalog);
      assert KeySet(catalog[1..]) <= KeySet(catalog) by {
        forall x | x in KeySet(catalog[1..]) ensures x in KeySet(catalog) {
          var j :| 0 <= j < |catalog[1..]| && catalog[1..][j].key == x;
          assert catalog[j + 1].key == x;
        }
      }
      AssignUntouched(results[catalog[0].key := Resolve(catalog[0], probe)], catalog[1..], probe, k);
    }
  }

  /** The initial map has exactly the catalog's keys. */
  lemma {:induction false} InitialKeys(catalog: seq<Service>)
    ensures InitialStatuses(catalog).Keys == KeySet(catalog)
  {
    if catalog != [] {
      var front := catalog[..|catalog| - 1];
      InitialKeys(front);
      assert KeySet(catalog) == KeySet(front) + {catalog[|catalog| - 1].key} by {
        forall k | k in KeySet(catalog) ensures k in KeySet(front) + {catalog[|catalog| - 1].key} {
          var i :| 0 <= i < |catalog| && catalog[i].key == k;
          if i < |catalog| - 1 { assert front[i].key == k; }
        }
      }
    }
  }

  /** With distinct keys, each service starts as `checking` if dialled, else `private`. */
  lemma {:induction false} InitialAt(catalog: seq<Service>, i: nat)
    requires DistinctKeys(catalog) && i < |catalog|
    ensures catalog[i].key in InitialStatuses(catalog)
    ensures InitialStatuses(catalog)[catalog[i].key] == InitialStatus(catalog[i])
  {
    var front := catalog[..|catalog| - 1];
    if i < |catalog| - 1 {
      assert front[i] == catalog[i];
      InitialAt(front, i);
    }
  }

  /** Every catalog key, and this app's, has exactly one entry after a check, and no other key does. */
  lemma CheckCoversCatalog(catalog: seq<Service>, probe: string -> Response)
    ensures CheckResult(catalog, probe).Keys == KeySet(catalog) + {SelfKey}
  {
    InitialKeys(catalog);
    AssignKeys(InitialStatuses(catalog), catalog, probe);
  }

  /**
   * What a check publishes for each service: this app is online; a service that is not public is
   * private, now as initially, so checks never change it; a dialled service is online exactly when
   * its probe answered with a 2xx status, and offline otherwise.
   */
  lemma CheckOutcome(catalog: seq<Service>, probe: string -> Response, i: nat)
    requires DistinctKeys(catalog) && i < |catalog|
    ensures SelfKey in CheckResult(catalog, probe) && CheckResult(catalog, probe)[SelfKey] == Online
    ensures catalog[i].key in CheckResult(catalog, probe) && catalog[i].key in InitialStatuses(catalog)
    ensures catalog[i].key != SelfKey && !catalog[i].public ==>
              CheckResult(catalog, probe)[catalog[i].key] == Private && InitialStatuses(catalog)[catalog[i].key] == Private
    ensures catalog[i].key != SelfKey && Dialable(catalog[i]) ==>
              (CheckResult(catalog, probe)[catalog[i].key] == Online <==> probe(catalog[i].url.value).Ok?)
              && (CheckResult(catalog, probe)[catalog[i].key] == Offline <==> !probe(catalog[i].url.value).Ok?)
    ensures catalog[i].key != SelfKey && catalog[i].public && !Dialable(catalog[i]) ==>
              CheckResult(catalog, probe)[catalog[i].key] == Online
  {
    AssignAt(InitialStatuses(catalog), catalog, probe, i);
    InitialAt(catalog, i);
  }

  lemma ServiceKeysDistinct()
    ensures DistinctKeys(Services)
  {
  }

  /** The catalog's eight keys. */
  lemma ServiceKeys()
    ensures KeySet(Services) == {"chetana", "beacon", "brain", "site", "dashboard", "factory", "ollama", "bus"}
  {
    var ks := {"chetana", "beacon", "brain", "site", "dashboard", "factory", "ollama", "bus"};
    var keys := [Services[0].key, Services[1].key, Services[2].key, Services[3].key,
                 Services[4].key, Services[5].key, Services[6].key, Services[7].key];
    assert keys == ["chetana", "beacon", "brain", "site", "dashboard", "factory", "ollama", "bus"];
    forall k | k in KeySet(Services) ensures k in ks {
      var i :| 0 <= i < |Services| && Services[i].key == k;
      assert keys[i] == k;
    }
    forall i | 0 <= i < 8 ensures keys[i] in KeySet(Services) {
      assert Services[i].key == keys[i];
    }
  }

  /** This app is in the catalog, so a check adds no key beyond the catalog's. */
  lemma CheckKeysAreCatalogKeys(probe: string -> Response)
    ensures CheckResult(Services, probe).Keys == KeySet(Services)
  {
    CheckCoversCatalog(Services, probe);
    assert Services[1].key == SelfKey;
  }

  lemma {:induction false} SubsetCard<T>(a: set<T>, b: set<T>)
    requires a <= b
    ensures |a| <= |b|
    decreases |b|
  {
    if a != {} {
      var x :| x in a;
      SubsetCard(a - {x}, b - {x});
    }
  }

  lemma {:induction false} KeySetCard(catalog: seq<Service>)
    ensures |KeySet(catalog)| <= |catalog|
  {
    if catalog != [] {
      KeySetCard(catalog[1..]);
      assert KeySet(catalog) <= {catalog[0].key} + KeySet(catalog[1..]) by {
        forall k | k in KeySet(catalog) ensures k in {catalog[0].key} + KeySet(catalog[1..]) {
          var i :| 0 <= i < |catalog| && catalog[i].key == k;
          if i > 0 { assert catalog[1..][i - 1].key == k; }
        }
      }
      SubsetCard(KeySet(catalog), {catalog[0].key} + KeySet(catalog[1..]));
    }
  }

  /** The two counts in the panel header never add up to more than the number of entries. */
  lemma CountsWithinEntries(m: map<string, Status>)
    ensures OnlineCount(m) + PrivateCount(m) <= |m.Keys|
  {
    assert OnlineKeys(m) * PrivateKeys(m) == {};
    SubsetCard(OnlineKeys(m) + PrivateKeys(m), m.Keys);
  }

  /** After any check the header's counts add up to at most the catalog size. */
  lemma CountsWithinCatalog(probe: string -> Response)
    ensures OnlineCount(CheckResult(Services, probe)) + PrivateCount(CheckResult(Services, probe)) <= |Services|
  {
    CountsWithinEntries(CheckResult(Services, probe));
    CheckKeysAreCatalogKeys(probe);
    KeySetCard(Services);
  }

  /** Before the first check, the three public services with a URL are `checking` and the other five `private`. */
  lemma InitialPanel()
    ensures var m := InitialStatuses(Services);
            m.Keys == {"chetana", "beacon", "brain", "site", "dashboard", "factory", "ollama", "bus"}
            && m["chetana"] == Checking && m["brain"] == Checking && m["site"] == Checking
            && m["beacon"] == Private && m["dashboard"] == Private && m["factory"] == Private
            && m["ollama"] == Private && m["bus"] == Private
  {
    ServiceKeysDistinct();
    ServiceKeys();
    InitialKeys(Services);
    InitialAt(Services, 0);
    InitialAt(Services, 1);
    InitialAt(Services, 2);
    InitialAt(Services, 3);
    InitialAt(Services, 4);
    InitialAt(Services, 5);
    InitialAt(Services, 6);
    InitialAt(Services, 7);
  }

  /** After any check: this app online, the four LAN services private, the three probed ones by their probes. */
  lemma PanelAfterCheck(probe: string -> Response)
    ensures var m := CheckResult(Services, probe);
            m.Keys == {"chetana", "beacon", "brain", "site", "dashboard", "factory", "ollama", "bus"}
            && m["beacon"] == Online
            && m["dashboard"] == Private && m["factory"] == Private && m["ollama"] == Private && m["bus"] == Private
            && (m["chetana"] == Online <==> probe("https://chetana.activemirror.ai/api/health").Ok?)
            && (m["brain"] == Online <==> probe("https://brain.activemirror.ai/status").Ok?)
            && (m["site"] == Online <==> probe("https://activemirror.ai").Ok?)
  {
    ServiceKeysDistinct();
    ServiceKeys();
    CheckKeysAreCatalogKeys(probe);
    CheckOutcome(Services, probe, 0);
    CheckOutcome(Services, probe, 2);
    CheckOutcome(Services, probe, 3);
    CheckOutcome(Services, probe, 4);
    CheckOutcome(Services, probe, 5);
    CheckOutcome(Services, probe, 6);
    CheckOutcome(Services, probe, 7);
  }
}
