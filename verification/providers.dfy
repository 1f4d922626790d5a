/** The provider catalog: `LoadProviders` turns the backend's `providers`
    array into provider records plus a name-to-UID map, and the host-facing
    provider queries filter that catalog. */
module Providers {
  import opened Common
  import opened Json
  import opened Records
  import opened ProviderId

  /** Enablement policy point: every provider the backend lists is enabled. */
  function IsProviderEnabled(name: string): (enabled: bool)
    ensures enabled
  {
    true
  }

  /** The record for an object entry whose `name` reads as `name`. */
  function ObjectProvider(e: Json, name: string): Provider {
    var shown := match GetString(e, "label")
      case Some(l) => if |l| > 0 then l else name
      case None => name;
    Provider(name, shown, StringOr(e, "country", ""), StringOr(e, "logo", ""),
             IsProviderEnabled(name), GenerateProviderUniqueId(name))
  }

  /** The record for a bare-string (legacy) entry. */
  function BareProvider(name: string): Provider {
    Provider(name, name, "", "", IsProviderEnabled(name), GenerateProviderUniqueId(name))
  }

  /** One `providers` entry: an object with a string `name`, or a bare
      string; any other shape is skipped. */
  function ProviderFromEntry(e: Json): (r: Option<Provider>)
    ensures r.Some? <==> GetString(e, "name").Some? || e.JString?
    ensures e.JString? ==> r == Some(Provider(CString(e.s), CString(e.s), "", "", true,
                                              GenerateProviderUniqueId(CString(e.s))))
    ensures GetString(e, "name").Some? ==> r.value.name == GetString(e, "name").value
    ensures r.Some? ==> r.value.enabled && r.value.uniqueId == GenerateProviderUniqueId(r.value.name)
    ensures r.Some? ==>
      r.value.labelText == (if GetString(e, "label").Some? && GetString(e, "label").value != ""
                            then GetString(e, "label").value else r.value.name)
    ensures r.Some? ==>
      r.value.country == StringOr(e, "country", "") && r.value.logo == StringOr(e, "logo", "")
  {
    match GetString(e, "name")
    case Some(name) => Some(ObjectProvider(e, name))
    case None => if e.JString? then Some(BareProvider(CString(e.s))) else None
  }

  /** The entry as the C++ code reads it: an object with a `name` member is
      taken whatever that member's type, and `GetString()` on a non-string
      fails a rapidjson assertion (undefined behaviour in a release build). */
  function ProviderFromEntryAsWritten(e: Json): (r: Outcome<Option<Provider>>)
    ensures r.Undefined? <==> Get(e, "name").Some? && !Get(e, "name").value.JString?
    ensures r.Defined? ==> r.value == ProviderFromEntry(e)
  {
    if e.JObject? && Get(e, "name").Some? then
      match Get(e, "name").value
      case JString(s) => Defined(Some(ObjectProvider(e, CString(s))))
      case _ => Undefined
    else if e.JString? then Defined(Some(BareProvider(CString(e.s))))
    else Defined(None)
  }

  /** An entry `{"name": 7}` makes the code as written undefined; the
      corrected reading skips it. */
  lemma NonStringNameIsUndefined()
    ensures ProviderFromEntryAsWritten(JObject([("name", JInt(7))])).Undefined?
    ensures ProviderFromEntry(JObject([("name", JInt(7))])) == None
  {
  }

  /** The record an entry contributes: one, or none when it is skipped. */
  function Accepted(e: Json): (r: seq<Provider>)
    ensures |r| <= 1
    ensures forall p :: p in r <==> ProviderFromEntry(e) == Some(p)
  {
    match ProviderFromEntry(e)
    case Some(p) => [p]
    case None => []
  }

  /** The accepted entries, in order. */
  function ProvidersFrom(entries: seq<Json>): (ps: seq<Provider>)
    ensures |ps| <= |entries|
  {
    if |entries| == 0 then [] else Accepted(entries[0]) + ProvidersFrom(entries[1..])
  }

  /** The catalog holds exactly the records of the accepted entries. */
  lemma {:induction false} ProvidersFromMembers(entries: seq<Json>)
    ensures forall p :: p in ProvidersFrom(entries) ==>
      exists e :: e in entries && ProviderFromEntry(e) == Some(p)
    ensures forall e :: e in entries && ProviderFromEntry(e).Some? ==>
      ProviderFromEntry(e).value in ProvidersFrom(entries)
  {
    if |entries| > 0 {
      var head, rest := Accepted(entries[0]), ProvidersFrom(entries[1..]);
      ProvidersFromMembers(entries[1..]);
      assert ProvidersFrom(entries) == head + rest;
      assert entries[0] in entries;
      forall p | p in ProvidersFrom(entries)
        ensures exists e :: e in entries && ProviderFromEntry(e) == Some(p)
      {
        if p !in head {
          var e :| e in entries[1..] && ProviderFromEntry(e) == Some(p);
          assert e in entries;
        }
      }
      forall e | e in entries && ProviderFromEntry(e).Some?
        ensures ProviderFromEntry(e).value in ProvidersFrom(entries)
      {
        var i :| 0 <= i < |entries| && entries[i] == e;
        if i > 0 {
          assert entries[1..][i - 1] == e;
        }
      }
    }
  }

  /** Entries are read in order: the catalog of a concatenation is the
      concatenation of the catalogs. */
  lemma {:induction false} ProvidersFromAppend(a: seq<Json>, b: seq<Json>)
    ensures ProvidersFrom(a + b) == ProvidersFrom(a) + ProvidersFrom(b)
  {
    if |a| == 0 {
      assert a + b == b;
    } else {
      var ab, tail := a + b, a[1..];
      assert ab[0] == a[0];
      assert ab[1..] == tail + b;
      ProvidersFromAppend(tail, b);
      var head, x, y := Accepted(a[0]), ProvidersFrom(tail), ProvidersFrom(b);
      assert ProvidersFrom(ab) == head + (x + y);
      assert ProvidersFrom(a) == head + x;
      ConcatAssoc(head, x, y);
    }
  }

  function Names(ps: seq<Provider>): set<string> {
    set i | 0 <= i < |ps| :: ps[i].name
  }

  /** `m_providerIdMap[p.name] = p.uniqueId` for each provider in turn. */
  function IdMap(ps: seq<Provider>): (m: map<string, int>)
    ensures m.Keys == Names(ps)
    ensures forall n :: n in m ==> exists i :: 0 <= i < |ps| && ps[i].name == n && m[n] == ps[i].uniqueId
  {
    if |ps| == 0 then map[]
    else
      var last := ps[|ps| - 1];
      var m := IdMap(ps[..|ps| - 1]);
      assert Names(ps) == Names(ps[..|ps| - 1]) + {last.name} by {
        forall n | n in Names(ps) ensures n in Names(ps[..|ps| - 1]) + {last.name} {
          var i :| 0 <= i < |ps| && ps[i].name == n;
          if i < |ps| - 1 {
            assert ps[..|ps| - 1][i].name == n;
          }
        }
      }
      m[last.name := last.uniqueId]
  }

  /** When every record's UID is the hash of its name, the map sends each
      name to its hash, so a duplicated name still has one UID. */
  lemma IdMapIsHash(ps: seq<Provider>)
    requires forall i :: 0 <= i < |ps| ==> ps[i].uniqueId == GenerateProviderUniqueId(ps[i].name)
    ensures forall n :: n in IdMap(ps) ==> IdMap(ps)[n] == GenerateProviderUniqueId(n)
  {
  }

  function ProviderEntries(response: Response): Option<seq<Json>> {
    if response.Parsed? then GetArray(response.doc, "providers") else None
  }

  /** `LoadProviders`: fails, leaving the state untouched, on an empty or
      unparseable response and on a missing or non-array `providers`;
      otherwise replaces the provider list and the ID map together. */
  function LoadProviders(s: Addon, backend: Backend): (r: (Addon, bool))
    ensures r.1 <==> ProviderEntries(backend(ProvidersPath)).Some?
    ensures !r.1 ==> r.0 == s
    ensures r.0 == s.(providers := r.0.providers, providerIdMap := r.0.providerIdMap)
    ensures r.1 ==> r.0.providers == ProvidersFrom(ProviderEntries(backend(ProvidersPath)).value)
    ensures r.1 ==> forall p :: p in r.0.providers ==>
                      p.enabled && p.uniqueId == GenerateProviderUniqueId(p.name)
    ensures r.1 ==> r.0.providerIdMap.Keys == Names(r.0.providers)
    ensures r.1 ==> forall n :: n in r.0.providerIdMap ==>
                      r.0.providerIdMap[n] == GenerateProviderUniqueId(n)
  {
    match ProviderEntries(backend(ProvidersPath))
    case None => (s, false)
    case Some(entries) =>
      var ps := ProvidersFrom(entries);
      ProvidersFromMembers(entries);
      assert forall i :: 0 <= i < |ps| ==> ps[i] in ps;
      IdMapIsHash(ps);
      (s.(providers := ps, providerIdMap := IdMap(ps)), true)
  }

  /** The positions of the enabled providers in the list. */
  function EnabledPositions(ps: seq<Provider>): set<nat> {
    set i: nat | i < |ps| && ps[i].enabled
  }

  /** The enabled positions of a list: its head's, and its tail's moved up by one. */
  lemma EnabledPositionsCons(ps: seq<Provider>)
    requires |ps| > 0
    ensures EnabledPositions(ps)
            == (if ps[0].enabled then {0} else {}) + ShiftUp(EnabledPositions(ps[1..]))
  {
    forall i | i in EnabledPositions(ps) && i > 0 ensures i in ShiftUp(EnabledPositions(ps[1..])) {
      assert i - 1 in EnabledPositions(ps[1..]);
    }
  }

  /** `GetProvidersAmount`: the number of enabled providers. */
  function GetProvidersAmount(ps: seq<Provider>): (amount: nat)
    ensures amount <= |ps|
    ensures amount == |ps| <==> forall i :: 0 <= i < |ps| ==> ps[i].enabled
  {
    if |ps| == 0 then 0
    else (if ps[0].enabled then 1 else 0) + GetProvidersAmount(ps[1..])
  }

  /** The amount is the number of positions holding an enabled provider. */
  lemma {:induction false} ProvidersAmountCountsEnabled(ps: seq<Provider>)
    ensures GetProvidersAmount(ps) == |EnabledPositions(ps)|
  {
    if |ps| == 0 {
      assert EnabledPositions(ps) == {};
    } else {
      ProvidersAmountCountsEnabled(ps[1..]);
      EnabledPositionsCons(ps);
      ShiftUpCard(EnabledPositions(ps[1..]));
    }
  }

  /** What `GetProviders` hands the host for one provider. */
  datatype HostProvider = HostProvider(name: string, iconPath: string, uniqueId: int, countries: seq<string>)

  /** The host-facing name: the label when it is set, else the name. */
  function DisplayName(p: Provider): (n: string)
    ensures n == (if p.labelText == "" then p.name else p.labelText)
  {
    if p.labelText != "" && p.labelText != p.name then p.labelText else p.name
  }

  function ToHost(p: Provider): HostProvider {
    HostProvider(DisplayName(p), p.logo, p.uniqueId, if p.country != "" then [p.country] else [])
  }

  /** `GetProviders`: one host record per enabled provider, in list order. */
  function GetProviders(ps: seq<Provider>): (r: seq<HostProvider>)
    ensures |r| == GetProvidersAmount(ps)
    ensures forall h :: h in r ==> exists p :: p in ps && p.enabled && h == ToHost(p)
    ensures forall p :: p in ps && p.enabled ==> ToHost(p) in r
  {
    if |ps| == 0 then []
    else
      assert forall p :: p in ps[1..] ==> p in ps;
      (if ps[0].enabled then [ToHost(ps[0])] else []) + GetProviders(ps[1..])
  }

  /** The host records come in list order, one for each enabled provider:
      a single provider gives its own record or none, and the records of a
      concatenation are the concatenation of the records. */
  lemma {:induction false} GetProvidersAppend(a: seq<Provider>, b: seq<Provider>)
    ensures |a| == 1 ==> GetProviders(a) == (if a[0].enabled then [ToHost(a[0])] else [])
    ensures GetProviders(a + b) == GetProviders(a) + GetProviders(b)
  {
    if |a| == 0 {
      assert a + b == b;
    } else {
      assert (a + b)[1..] == a[1..] + b;
      GetProvidersAppend(a[1..], b);
      var head := if a[0].enabled then [ToHost(a[0])] else [];
      ConcatAssoc(head, GetProviders(a[1..]), GetProviders(b));
    }
  }

  /** After a successful load every provider is reported to the host. */
  lemma LoadedProvidersAllReported(s: Addon, backend: Backend)
    requires LoadProviders(s, backend).1
    ensures GetProvidersAmount(LoadProviders(s, backend).0.providers)
            == |LoadProviders(s, backend).0.providers|
  {
    var ps := LoadProviders(s, backend).0.providers;
    assert forall i :: 0 <= i < |ps| ==> ps[i] in ps;
  }
}
