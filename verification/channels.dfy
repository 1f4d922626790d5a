/** The channel catalog: `LoadChannels` visits the providers in list order,
    fetches each enabled provider's channel listing, and numbers the
    channels with one running counter carried across providers. */
module Channels {
  import opened Common
  import opened Json
  import opened Records

  /** One channel entry together with the provider it was fetched for. */
  datatype Slot = Slot(provider: string, entry: Json)

  /** The channels produced so far and the value of `m_nextChannelNumber`. */
  datatype Pass = Pass(channels: seq<Channel>, next: int)

  /** The offset added to backend channel numbers when the catalog holds
      more than one provider. It does not depend on the provider's position. */
  const MultiProviderOffset: int := 1000

  function ProviderOffset(providerCount: nat): (offset: int)
    ensures offset == 0 || offset == MultiProviderOffset
    ensures offset == 0 <==> providerCount <= 1
  {
    if providerCount > 1 then MultiProviderOffset else 0
  }

  /** The backend-supplied number, when `ChannelNumber` is a 32-bit int. */
  function BackendNumber(entry: Json): Option<int> {
    GetInt(entry, "ChannelNumber")
  }

  /** The channel record for an entry once its number is chosen: the
      entry's fields with their defaults; radio is never set. */
  function ChannelRecord(provider: string, entry: Json, number: int): (c: Channel)
    ensures c.provider == provider && c.channelNumber == number && !c.isRadio
    ensures c.uniqueId == provider + ":" + c.channelId
  {
    var id := StringOr(entry, "Id", "");
    Channel(
      provider + ":" + id,
      number,
      StringOr(entry, "Name", ""),
      StringOr(entry, "LogoUrl", ""),
      provider,
      id,
      false,
      StringOr(entry, "Mode", "live"),
      BoolOr(entry, "SessionManifest", false),
      StringOr(entry, "Manifest", ""),
      StringOr(entry, "ManifestScript", ""),
      BoolOr(entry, "UseCdm", true),
      StringOr(entry, "CdmMode", "external"),
      StringOr(entry, "ContentType", "LIVE"),
      StringOr(entry, "Country", ""),
      StringOr(entry, "Language", "de"),
      StringOr(entry, "StreamingFormat", ""))
  }

  /** How a record reads its entry: each string field is its member when
      that is a string, else its default; CDM is used unless `UseCdm` is
      `false`; the manifest is per session only when `SessionManifest` is
      `true`. */
  lemma ChannelRecordReadsEntry(provider: string, entry: Json, number: int)
    ensures var c := ChannelRecord(provider, entry, number);
      && StringMember(entry, "Id", "", c.channelId)
      && StringMember(entry, "Name", "", c.channelName)
      && StringMember(entry, "LogoUrl", "", c.iconPath)
      && StringMember(entry, "Mode", "live", c.mode)
      && StringMember(entry, "Manifest", "", c.manifest)
      && StringMember(entry, "ManifestScript", "", c.manifestScript)
      && StringMember(entry, "CdmMode", "external", c.cdmMode)
      && StringMember(entry, "ContentType", "LIVE", c.contentType)
      && StringMember(entry, "Country", "", c.country)
      && StringMember(entry, "Language", "de", c.language)
      && StringMember(entry, "StreamingFormat", "", c.streamingFormat)
      && c.useCdm == (Get(entry, "UseCdm") != Some(JBool(false)))
      && c.sessionManifest == (Get(entry, "SessionManifest") == Some(JBool(true)))
  {
    StringOrMember(entry, "Id", "");
    StringOrMember(entry, "Name", "");
    StringOrMember(entry, "LogoUrl", "");
    StringOrMember(entry, "Mode", "live");
    StringOrMember(entry, "Manifest", "");
    StringOrMember(entry, "ManifestScript", "");
    StringOrMember(entry, "CdmMode", "external");
    StringOrMember(entry, "ContentType", "LIVE");
    StringOrMember(entry, "Country", "");
    StringOrMember(entry, "Language", "de");
    StringOrMember(entry, "StreamingFormat", "");
    BoolOrMember(entry, "UseCdm", true);
    BoolOrMember(entry, "SessionManifest", false);
  }

  /** In an entry naming only `Name` and `Id`, any other key is absent. */
  lemma OtherKeyAbsent(name: string, id: string, key: string)
    requires key != "Name" && key != "Id"
    ensures Get(JObject([("Name", JString(name)), ("Id", JString(id))]), key) == None
  {
  }

  lemma NameAndIdPresent(name: string, id: string)
    ensures Get(JObject([("Name", JString(name)), ("Id", JString(id))]), "Name") == Some(JString(name))
    ensures Get(JObject([("Name", JString(name)), ("Id", JString(id))]), "Id") == Some(JString(id))
  {
    var members := [("Name", JString(name)), ("Id", JString(id))];
    assert "Name" != "Id" by { assert "Name"[0] != "Id"[0]; }
    assert members[1..] == [("Id", JString(id))];
    assert Lookup(members[1..], "Id") == Some(JString(id));
  }

  /** An entry that names only `Name` and `Id` gets every default. */
  lemma MinimalEntryDefaults(provider: string, name: string, id: string, number: int)
    requires '\0' !in name && '\0' !in id
    ensures ChannelRecord(provider, JObject([("Name", JString(name)), ("Id", JString(id))]), number)
         == Channel(provider + ":" + id, number, name, "", provider, id, false,
                    "live", false, "", "", true, "external", "LIVE", "", "de", "")
  {
    CStringOfNulFree(name);
    CStringOfNulFree(id);
    var e := JObject([("Name", JString(name)), ("Id", JString(id))]);
    NameAndIdPresent(name, id);
    assert GetString(e, "Name") == Some(name);
    assert GetString(e, "Id") == Some(id);
    OtherKeyAbsent(name, id, "LogoUrl");
    OtherKeyAbsent(name, id, "Mode");
    OtherKeyAbsent(name, id, "SessionManifest");
    OtherKeyAbsent(name, id, "Manifest");
    OtherKeyAbsent(name, id, "ManifestScript");
    OtherKeyAbsent(name, id, "UseCdm");
    OtherKeyAbsent(name, id, "CdmMode");
    OtherKeyAbsent(name, id, "ContentType");
    OtherKeyAbsent(name, id, "Country");
    OtherKeyAbsent(name, id, "Language");
    OtherKeyAbsent(name, id, "StreamingFormat");
  }

  /** The numbers the fold assigns, and the counter after it. */
  datatype Numbering = Numbering(numbers: seq<int>, next: int)

  /** The number one entry receives when the counter stands at `next`. */
  function Assigned(entry: Json, offset: int, next: int): int {
    match BackendNumber(entry)
    case Some(n) => n + offset
    case None => next
  }

  /** The counter after a channel numbered `number`: pushed past it. */
  function Advance(number: int, next: int): int {
    if number >= next then number + 1 else next
  }

  /** The numbering fold. A backend number n becomes n + offset and pushes
      the counter past it; an entry without one takes the counter's value
      and advances it. */
  function AssignNumbers(slots: seq<Slot>, offset: int, next: int): (r: Numbering)
    ensures |r.numbers| == |slots|
    ensures next <= r.next
  {
    if |slots| == 0 then Numbering([], next)
    else
      var number := Assigned(slots[0].entry, offset, next);
      var next' := Advance(number, next);
      var rest := AssignNumbers(slots[1..], offset, next');
      Numbering([number] + rest.numbers, rest.next)
  }

  /** An auto number is never pushed further than it must be: it is the
      starting counter or one more than a number assigned before it. */
  lemma {:induction false} AutoNumberIsCounter(slots: seq<Slot>, offset: int, next: int)
    ensures var r := AssignNumbers(slots, offset, next);
      forall i :: 0 <= i < |slots| && BackendNumber(slots[i].entry).None? ==>
        r.numbers[i] == next || exists k :: 0 <= k < i && r.numbers[i] == r.numbers[k] + 1
  {
    if |slots| > 0 {
      var number := Assigned(slots[0].entry, offset, next);
      var next' := Advance(number, next);
      AutoNumberIsCounter(slots[1..], offset, next');
      var rest := AssignNumbers(slots[1..], offset, next');
      var r := AssignNumbers(slots, offset, next);
      forall i | 1 <= i < |slots| && BackendNumber(slots[i].entry).None?
        ensures r.numbers[i] == next || exists k :: 0 <= k < i && r.numbers[i] == r.numbers[k] + 1
      {
        assert slots[i] == slots[1..][i - 1];
        assert r.numbers[i] == rest.numbers[i - 1];
        if rest.numbers[i - 1] != next' {
          var k :| 0 <= k < i - 1 && rest.numbers[i - 1] == rest.numbers[k] + 1;
          assert r.numbers[k + 1] == rest.numbers[k];
        } else if next' != next {
          assert r.numbers[0] == number;
        }
      }
    }
  }

  /** Likewise the final counter: the starting counter or one more than a
      number assigned. */
  lemma {:induction false} FinalCounterIsTight(slots: seq<Slot>, offset: int, next: int)
    ensures var r := AssignNumbers(slots, offset, next);
      r.next == next || exists k :: 0 <= k < |slots| && r.next == r.numbers[k] + 1
  {
    if |slots| > 0 {
      var number := Assigned(slots[0].entry, offset, next);
      var next' := Advance(number, next);
      FinalCounterIsTight(slots[1..], offset, next');
      var rest := AssignNumbers(slots[1..], offset, next');
      var r := AssignNumbers(slots, offset, next);
      if rest.next != next' {
        var k :| 0 <= k < |slots| - 1 && rest.next == rest.numbers[k] + 1;
        assert r.numbers[k + 1] == rest.numbers[k];
      } else if next' != next {
        assert r.numbers[0] == number;
      }
    }
  }

  /** The bounds the fold keeps: a backend number n is shown as n + offset;
      the counter ends above every number assigned; an auto-numbered entry
      gets at least the starting counter and more than every number assigned
      before it. */
  lemma {:induction false} AssignNumbersBounds(slots: seq<Slot>, offset: int, next: int)
    ensures var r := AssignNumbers(slots, offset, next);
      && (forall i :: 0 <= i < |slots| ==> r.numbers[i] < r.next)
      && (forall i :: 0 <= i < |slots| && BackendNumber(slots[i].entry).Some? ==>
            r.numbers[i] == BackendNumber(slots[i].entry).value + offset)
      && (forall i :: 0 <= i < |slots| && BackendNumber(slots[i].entry).None? ==>
            next <= r.numbers[i])
      && (forall i, k :: 0 <= k < i < |slots| && BackendNumber(slots[i].entry).None? ==>
            r.numbers[k] < r.numbers[i])
  {
    if |slots| > 0 {
      var number := Assigned(slots[0].entry, offset, next);
      var next' := Advance(number, next);
      AssignNumbersBounds(slots[1..], offset, next');
      var rest := AssignNumbers(slots[1..], offset, next');
      var r := AssignNumbers(slots, offset, next);
      assert r.numbers == [number] + rest.numbers;
      forall i | 1 <= i < |slots|
        ensures r.numbers[i] == rest.numbers[i - 1] && slots[i] == slots[1..][i - 1]
      {
      }
    }
  }

  /** What the fold guarantees. A backend number n is shown as n + offset,
      and the counter ends above every number assigned. An auto-numbered
      entry gets the smallest value that is at least the starting counter
      and above every number assigned before it: it is bounded below by
      both, and equals the start or one more than an earlier number. The
      final counter is likewise the start or one more than a number. */
  lemma AssignNumbersSpec(slots: seq<Slot>, offset: int, next: int)
    ensures var r := AssignNumbers(slots, offset, next);
      && (forall i :: 0 <= i < |slots| ==> r.numbers[i] < r.next)
      && (forall i :: 0 <= i < |slots| && BackendNumber(slots[i].entry).Some? ==>
            r.numbers[i] == BackendNumber(slots[i].entry).value + offset)
      && (forall i :: 0 <= i < |slots| && BackendNumber(slots[i].entry).None? ==>
            next <= r.numbers[i])
      && (forall i, k :: 0 <= k < i < |slots| && BackendNumber(slots[i].entry).None? ==>
            r.numbers[k] < r.numbers[i])
      && (forall i :: 0 <= i < |slots| && BackendNumber(slots[i].entry).None? ==>
            r.numbers[i] == next || exists k :: 0 <= k < i && r.numbers[i] == r.numbers[k] + 1)
      && (r.next == next || exists k :: 0 <= k < |slots| && r.next == r.numbers[k] + 1)
  {
    AssignNumbersBounds(slots, offset, next);
    AutoNumberIsCounter(slots, offset, next);
    FinalCounterIsTight(slots, offset, next);
  }

  /** Numbering a concatenation is numbering the first part and carrying
      its counter into the second. */
  lemma {:induction false} AssignNumbersAppend(a: seq<Slot>, b: seq<Slot>, offset: int, next: int)
    ensures AssignNumbers(a + b, offset, next)
         == Numbering(AssignNumbers(a, offset, next).numbers
                        + AssignNumbers(b, offset, AssignNumbers(a, offset, next).next).numbers,
                      AssignNumbers(b, offset, AssignNumbers(a, offset, next).next).next)
  {
    if |a| == 0 {
      assert a + b == b;
    } else {
      var ab, tail := a + b, a[1..];
      assert ab[0] == a[0];
      assert ab[1..] == tail + b;
      var number := Assigned(a[0].entry, offset, next);
      var next' := Advance(number, next);
      AssignNumbersAppend(tail, b, offset, next');
      var ra := AssignNumbers(tail, offset, next');
      var rb := AssignNumbers(b, offset, ra.next);
      assert AssignNumbers(a, offset, next) == Numbering([number] + ra.numbers, ra.next);
      assert AssignNumbers(ab, offset, next) == Numbering([number] + (ra.numbers + rb.numbers), rb.next);
      ConcatAssoc([number], ra.numbers, rb.numbers);
    }
  }

  /** The records for numbered slots. */
  function Build(slots: seq<Slot>, numbers: seq<int>): (cs: seq<Channel>)
    requires |slots| == |numbers|
    ensures |cs| == |slots|
    ensures forall i :: 0 <= i < |slots| ==> cs[i] == ChannelRecord(slots[i].provider, slots[i].entry, numbers[i])
  {
    seq(|slots|, i requires 0 <= i < |slots| => ChannelRecord(slots[i].provider, slots[i].entry, numbers[i]))
  }

  lemma BuildAppend(a: seq<Slot>, na: seq<int>, b: seq<Slot>, nb: seq<int>)
    requires |a| == |na| && |b| == |nb|
    ensures Build(a + b, na + nb) == Build(a, na) + Build(b, nb)
  {
  }

  /** Numbers and records for a sequence of slots, starting from `next`. */
  function NumberSlots(slots: seq<Slot>, offset: int, next: int): Pass {
    var numbering := AssignNumbers(slots, offset, next);
    Pass(Build(slots, numbering.numbers), numbering.next)
  }

  lemma NumberSlotsAppend(a: seq<Slot>, b: seq<Slot>, offset: int, next: int)
    ensures NumberSlots(a + b, offset, next)
         == var first := NumberSlots(a, offset, next);
            var second := NumberSlots(b, offset, first.next);
            Pass(first.channels + second.channels, second.next)
  {
    AssignNumbersAppend(a, b, offset, next);
    var na := AssignNumbers(a, offset, next);
    BuildAppend(a, na.numbers, b, AssignNumbers(b, offset, na.next).numbers);
  }

  /** The `channels` array of a provider's listing; `None` when the response
      is empty, does not parse, or has no `channels` array. */
  function ChannelEntries(response: Response): Option<seq<Json>> {
    if response.Parsed? then GetArray(response.doc, "channels") else None
  }

  function SlotsOf(provider: string, entries: seq<Json>): (slots: seq<Slot>)
    ensures |slots| == |entries|
    ensures forall i :: 0 <= i < |entries| ==> slots[i] == Slot(provider, entries[i])
  {
    seq(|entries|, i requires 0 <= i < |entries| => Slot(provider, entries[i]))
  }

  /** The slots one provider's listing yields: none when it cannot be read. */
  function ProviderSlots(provider: string, response: Response): seq<Slot> {
    match ChannelEntries(response)
    case None => []
    case Some(entries) => SlotsOf(provider, entries)
  }

  /** `LoadChannelsForProvider`: appends one channel per listed entry, in
      listing order, or nothing (and reports failure) when the listing
      cannot be read. */
  function LoadChannelsForProvider(provider: string, response: Response, offset: int, next: int)
    : (r: (bool, Pass))
    ensures r.0 <==> ChannelEntries(response).Some?
    ensures !r.0 ==> r.1 == Pass([], next)
    ensures r.0 ==> |r.1.channels| == |ChannelEntries(response).value|
    ensures forall i :: 0 <= i < |r.1.channels| ==>
      r.1.channels[i].provider == provider
      && r.1.channels[i] == ChannelRecord(provider, ChannelEntries(response).value[i], r.1.channels[i].channelNumber)
  {
    (ChannelEntries(response).Some?, NumberSlots(ProviderSlots(provider, response), offset, next))
  }

  /** The channel entries a pass over `providers` reads, in visiting order. */
  function PassSlots(providers: seq<Provider>, backend: Backend): seq<Slot> {
    if |providers| == 0 then []
    else
      var p := providers[0];
      var own := if p.enabled then ProviderSlots(p.name, backend(ChannelsPath(p.name))) else [];
      own + PassSlots(providers[1..], backend)
  }

  /** Every slot of one listing belongs to the provider it was fetched for. */
  lemma ProviderSlotsOwner(provider: string, response: Response)
    ensures forall slot :: slot in ProviderSlots(provider, response) ==> slot.provider == provider
  {
  }

  /** The names of the enabled providers of a list. */
  function EnabledNames(providers: seq<Provider>): set<string> {
    set p | p in providers && p.enabled :: p.name
  }

  /** Every slot of a pass belongs to an enabled provider of the list. */
  lemma {:induction false} PassSlotsFromProviders(providers: seq<Provider>, backend: Backend)
    ensures forall slot :: slot in PassSlots(providers, backend) ==> slot.provider in EnabledNames(providers)
  {
    if |providers| > 0 {
      var p := providers[0];
      var own: seq<Slot> := if p.enabled then ProviderSlots(p.name, backend(ChannelsPath(p.name))) else [];
      var rest := PassSlots(providers[1..], backend);
      ProviderSlotsOwner(p.name, backend(ChannelsPath(p.name)));
      PassSlotsFromProviders(providers[1..], backend);
      assert PassSlots(providers, backend) == own + rest;
      assert EnabledNames(providers[1..]) <= EnabledNames(providers) by {
        assert forall q :: q in providers[1..] ==> q in providers;
      }
      if p.enabled {
        assert p in providers;
        assert p.name in EnabledNames(providers);
      }
    }
  }

  lemma {:induction false} PassSlotsAppend(a: seq<Provider>, b: seq<Provider>, backend: Backend)
    ensures PassSlots(a + b, backend) == PassSlots(a, backend) + PassSlots(b, backend)
  {
    if |a| == 0 {
      assert a + b == b;
    } else {
      assert (a + b)[0] == a[0];
      assert (a + b)[1..] == a[1..] + b;
      PassSlotsAppend(a[1..], b, backend);
    }
  }

  /** The loop of `LoadChannels` over the providers, threading the counter
      from each provider into the next: one numbering pass over all the
      entries it reads. */
  function ProviderPass(providers: seq<Provider>, backend: Backend, offset: int, next: int): (r: Pass)
    ensures r == NumberSlots(PassSlots(providers, backend), offset, next)
  {
    if |providers| == 0 then Pass([], next)
    else
      var p := providers[0];
      var first := if p.enabled
                   then LoadChannelsForProvider(p.name, backend(ChannelsPath(p.name)), offset, next).1
                   else Pass([], next);
      var rest := ProviderPass(providers[1..], backend, offset, first.next);
      var own := if p.enabled then ProviderSlots(p.name, backend(ChannelsPath(p.name))) else [];
      NumberSlotsAppend(own, PassSlots(providers[1..], backend), offset, next);
      Pass(first.channels + rest.channels, rest.next)
  }

  /** `LoadChannels`: clears the list, resets the counter to 1, visits the
      providers in order and reports whether any channel was loaded. The
      offset is the same for every provider. */
  function LoadChannels(s: Addon, backend: Backend): (r: (Addon, bool))
    ensures r.0 == s.(channels := r.0.channels, nextChannelNumber := r.0.nextChannelNumber)
    ensures r.1 <==> |r.0.channels| > 0
    ensures var slots := PassSlots(s.providers, backend);
            var numbering := AssignNumbers(slots, ProviderOffset(|s.providers|), 1);
            r.0.channels == Build(slots, numbering.numbers) && r.0.nextChannelNumber == numbering.next
  {
    var pass := ProviderPass(s.providers, backend, ProviderOffset(|s.providers|), 1);
    (s.(channels := pass.channels, nextChannelNumber := pass.next), |pass.channels| > 0)
  }

  /** After a load the counter is at least 1 and exceeds every number in
      the catalog. */
  lemma CounterExceedsCatalog(s: Addon, backend: Backend)
    ensures 1 <= LoadChannels(s, backend).0.nextChannelNumber
    ensures forall c :: c in LoadChannels(s, backend).0.channels ==>
      c.channelNumber < LoadChannels(s, backend).0.nextChannelNumber
  {
    var slots := PassSlots(s.providers, backend);
    AssignNumbersBounds(slots, ProviderOffset(|s.providers|), 1);
    var channels := LoadChannels(s, backend).0.channels;
    forall c | c in channels
      ensures c.channelNumber < LoadChannels(s, backend).0.nextChannelNumber
    {
      var i :| 0 <= i < |channels| && channels[i] == c;
    }
  }

  /** The catalog a reload builds depends only on the providers and the
      backend, not on the channels or counter left by an earlier load. */
  lemma ReloadIgnoresOldCatalog(s: Addon, t: Addon, backend: Backend)
    requires s.providers == t.providers
    ensures LoadChannels(s, backend).0.channels == LoadChannels(t, backend).0.channels
    ensures LoadChannels(s, backend).0.nextChannelNumber == LoadChannels(t, backend).0.nextChannelNumber
    ensures LoadChannels(s, backend).1 == LoadChannels(t, backend).1
  {
  }

  /** Reloading with the same backend yields the same catalog. */
  lemma ReloadIdempotent(s: Addon, backend: Backend)
    ensures LoadChannels(LoadChannels(s, backend).0, backend) == LoadChannels(s, backend)
  {
    ReloadIgnoresOldCatalog(LoadChannels(s, backend).0, s, backend);
  }

  /** A provider that is disabled, or whose listing cannot be read,
      contributes nothing and does not disturb the providers after it. */
  lemma FailedProviderContributesNothing(providers: seq<Provider>, backend: Backend, offset: int, next: int, i: nat)
    requires i < |providers|
    requires !providers[i].enabled || ChannelEntries(backend(ChannelsPath(providers[i].name))).None?
    ensures ProviderPass(providers, backend, offset, next)
         == ProviderPass(providers[..i] + providers[i + 1..], backend, offset, next)
  {
    var before, after := providers[..i], providers[i + 1..];
    assert providers == before + [providers[i]] + after;
    PassSlotsAppend(before + [providers[i]], after, backend);
    PassSlotsAppend(before, [providers[i]], backend);
    PassSlotsAppend(before, after, backend);
    assert PassSlots([providers[i]], backend) == [] by {
      assert [providers[i]][1..] == [];
    }
    assert PassSlots(providers, backend) == PassSlots(before + after, backend);
  }

  /** A channel with backend number n is shown as n + 1000 when the catalog
      has several providers, and as n with a single provider. */
  lemma BackendNumberOffset(s: Addon, backend: Backend, i: nat, n: int)
    requires i < |PassSlots(s.providers, backend)|
    requires BackendNumber(PassSlots(s.providers, backend)[i].entry) == Some(n)
    ensures LoadChannels(s, backend).0.channels[i].channelNumber
         == (if |s.providers| > 1 then n + 1000 else n)
  {
    AssignNumbersBounds(PassSlots(s.providers, backend), ProviderOffset(|s.providers|), 1);
  }

  /** An auto-numbered channel is numbered above every channel loaded
      before it in the same pass, so it reuses none of their numbers. */
  lemma AutoNumberIsFresh(s: Addon, backend: Backend, i: nat)
    requires i < |PassSlots(s.providers, backend)|
    requires BackendNumber(PassSlots(s.providers, backend)[i].entry).None?
    ensures forall k :: 0 <= k < i ==>
      LoadChannels(s, backend).0.channels[k].channelNumber
        < LoadChannels(s, backend).0.channels[i].channelNumber
  {
    AssignNumbersBounds(PassSlots(s.providers, backend), ProviderOffset(|s.providers|), 1);
  }

  /** A provider whose listing holds the one entry `entry`. */
  lemma OneEntryListing(p: Provider, entry: Json, backend: Backend)
    requires p.enabled
    requires backend(ChannelsPath(p.name)) == Parsed(JObject([("channels", JArray([entry]))]))
    ensures PassSlots([p], backend) == [Slot(p.name, entry)]
  {
    assert ChannelEntries(backend(ChannelsPath(p.name))) == Some([entry]);
    assert ProviderSlots(p.name, backend(ChannelsPath(p.name))) == [Slot(p.name, entry)];
    assert [p][1..] == [];
  }

  /** A provider whose listing cannot be read. */
  lemma NoListing(p: Provider, backend: Backend)
    requires ChannelEntries(backend(ChannelsPath(p.name))).None?
    ensures PassSlots([p], backend) == []
  {
    assert [p][1..] == [];
  }

  /** Two providers where only the second lists a channel, numbered 5 by the
      backend: that channel is shown as 1005. */
  lemma SecondProviderChannelFive(s: Addon, a: Provider, b: Provider, entry: Json, backend: Backend)
    requires s.providers == [a, b] && a.enabled && b.enabled
    requires entry == JObject([("ChannelNumber", JInt(5))])
    requires backend(ChannelsPath(a.name)) == NoResponse
    requires backend(ChannelsPath(b.name)) == Parsed(JObject([("channels", JArray([entry]))]))
    ensures LoadChannels(s, backend).1
    ensures LoadChannels(s, backend).0.channels == [ChannelRecord(b.name, entry, 1005)]
    ensures LoadChannels(s, backend).0.nextChannelNumber == 1006
  {
    var y := Slot(b.name, entry);
    NoListing(a, backend);
    OneEntryListing(b, entry, backend);
    PassSlotsAppend([a], [b], backend);
    assert [a] + [b] == s.providers;
    assert PassSlots(s.providers, backend) == [y];
    assert BackendNumber(entry) == Some(5);
    assert AssignNumbers([y], 1000, 1) == Numbering([1005], 1006);
    var channels := LoadChannels(s, backend).0.channels;
    assert channels == Build([y], [1005]);
    assert channels[0] == ChannelRecord(b.name, entry, 1005);
  }

  /** Two entries numbered 5 by the backend, under a 1000 offset. */
  lemma SharedFiveNumbering(x: Slot, y: Slot)
    requires BackendNumber(x.entry) == Some(5) && BackendNumber(y.entry) == Some(5)
    ensures AssignNumbers([x, y], 1000, 1) == Numbering([1005, 1005], 1006)
  {
    assert [x, y][1..] == [y];
    assert AssignNumbers([y], 1000, 1006) == Numbering([1005], 1006);
  }

  /** Auto numbers continue from the counter and after a backend number:
      entries without a number around a backend 5, from counter 1 with no
      offset, become 1, 5 and 6, and the counter ends at 7. */
  lemma AutoAroundBackendFive(p: string, auto: Json, five: Json)
    requires BackendNumber(auto).None? && BackendNumber(five) == Some(5)
    ensures AssignNumbers([Slot(p, auto), Slot(p, five), Slot(p, auto)], 0, 1) == Numbering([1, 5, 6], 7)
  {
    var x, y := Slot(p, auto), Slot(p, five);
    assert [x, y, x][1..] == [y, x];
    assert [y, x][1..] == [x];
    assert AssignNumbers([x], 0, 6) == Numbering([6], 7);
    assert AssignNumbers([y, x], 0, 2) == Numbering([5, 6], 7);
  }

  /** The offset does not depend on the provider's position: two providers
      that both list backend number 5 both show it as 1005. */
  lemma SharedBackendNumberCollides(s: Addon, a: Provider, b: Provider, entry: Json, backend: Backend)
    requires s.providers == [a, b] && a.enabled && b.enabled
    requires entry == JObject([("ChannelNumber", JInt(5))])
    requires backend(ChannelsPath(a.name)) == Parsed(JObject([("channels", JArray([entry]))]))
    requires backend(ChannelsPath(b.name)) == Parsed(JObject([("channels", JArray([entry]))]))
    ensures LoadChannels(s, backend).0.channels
         == [ChannelRecord(a.name, entry, 1005), ChannelRecord(b.name, entry, 1005)]
  {
    var x, y := Slot(a.name, entry), Slot(b.name, entry);
    OneEntryListing(a, entry, backend);
    OneEntryListing(b, entry, backend);
    PassSlotsAppend([a], [b], backend);
    assert [a] + [b] == s.providers;
    assert PassSlots(s.providers, backend) == [x, y];
    assert BackendNumber(entry) == Some(5);
    SharedFiveNumbering(x, y);
    var channels := LoadChannels(s, backend).0.channels;
    assert channels == Build([x, y], [1005, 1005]);
    assert channels[0] == ChannelRecord(a.name, entry, 1005);
    assert channels[1] == ChannelRecord(b.name, entry, 1005);
  }

  /** What `GetChannels` hands the host for one channel. */
  datatype HostChannel = HostChannel(
    uniqueId: int,
    isRadio: bool,
    channelNumber: int,
    channelName: string,
    iconPath: string,
    providerUid: Option<int>)

  function ToHost(c: Channel, idMap: map<string, int>): (h: HostChannel) {
    HostChannel(c.channelNumber, c.isRadio, c.channelNumber, c.channelName, c.iconPath,
                if c.provider in idMap then Some(idMap[c.provider]) else None)
  }

  /** The positions of the channels whose radio flag is `radio`. */
  function MatchingPositions(channels: seq<Channel>, radio: bool): set<nat> {
    set i: nat | i < |channels| && channels[i].isRadio == radio
  }

  /** The matching positions of a list: its head's, and its tail's moved up by one. */
  lemma MatchingPositionsCons(channels: seq<Channel>, radio: bool)
    requires |channels| > 0
    ensures MatchingPositions(channels, radio)
            == (if channels[0].isRadio == radio then {0} else {})
               + ShiftUp(MatchingPositions(channels[1..], radio))
  {
    forall i | i in MatchingPositions(channels, radio) && i > 0
      ensures i in ShiftUp(MatchingPositions(channels[1..], radio))
    {
      assert i - 1 in MatchingPositions(channels[1..], radio);
    }
  }

  /** `GetChannels`: the channels whose radio flag matches, in list order,
      each keyed by its channel number. */
  function GetChannels(channels: seq<Channel>, idMap: map<string, int>, radio: bool): (r: seq<HostChannel>)
    ensures |r| <= |channels|
    ensures forall h :: h in r ==> h.isRadio == radio
    ensures forall h :: h in r ==> exists c :: c in channels && h == ToHost(c, idMap)
    ensures forall c :: c in channels && c.isRadio == radio ==> ToHost(c, idMap) in r
  {
    if |channels| == 0 then []
    else
      assert forall c :: c in channels[1..] ==> c in channels;
      (if channels[0].isRadio == radio then [ToHost(channels[0], idMap)] else [])
        + GetChannels(channels[1..], idMap, radio)
  }

  /** `GetChannels` reports exactly as many records as there are channels
      with the requested radio flag. */
  lemma {:induction false} GetChannelsCount(channels: seq<Channel>, idMap: map<string, int>, radio: bool)
    ensures |GetChannels(channels, idMap, radio)| == |MatchingPositions(channels, radio)|
  {
    if |channels| == 0 {
      assert MatchingPositions(channels, radio) == {};
    } else {
      GetChannelsCount(channels[1..], idMap, radio);
      MatchingPositionsCons(channels, radio);
      ShiftUpCard(MatchingPositions(channels[1..], radio));
    }
  }

  /** The host records come in list order, one for each matching channel:
      a single channel gives its own record or none, and the records of a
      concatenation are the concatenation of the records. */
  lemma {:induction false} GetChannelsAppend(a: seq<Channel>, b: seq<Channel>, idMap: map<string, int>, radio: bool)
    ensures |a| == 1 ==>
      GetChannels(a, idMap, radio) == (if a[0].isRadio == radio then [ToHost(a[0], idMap)] else [])
    ensures GetChannels(a + b, idMap, radio) == GetChannels(a, idMap, radio) + GetChannels(b, idMap, radio)
  {
    if |a| == 0 {
      assert a + b == b;
    } else {
      assert (a + b)[1..] == a[1..] + b;
      GetChannelsAppend(a[1..], b, idMap, radio);
      var head := if a[0].isRadio == radio then [ToHost(a[0], idMap)] else [];
      ConcatAssoc(head, GetChannels(a[1..], idMap, radio), GetChannels(b, idMap, radio));
    }
  }

  /** A loaded catalog holds TV channels only: the radio list is empty and
      the TV list has every channel. */
  lemma {:induction false} LoadedCatalogIsAllTv(channels: seq<Channel>, idMap: map<string, int>)
    requires forall i :: 0 <= i < |channels| ==> !channels[i].isRadio
    ensures GetChannels(channels, idMap, true) == []
    ensures |GetChannels(channels, idMap, false)| == |channels|
  {
    if |channels| > 0 {
      LoadedCatalogIsAllTv(channels[1..], idMap);
    }
  }

  /** Every loaded channel names a provider of the catalog, so its provider
      UID is found when the ID map was built from the same provider list. */
  lemma LoadedChannelsHaveProviderUid(s: Addon, backend: Backend)
    requires s.providerIdMap.Keys == (set k | 0 <= k < |s.providers| :: s.providers[k].name)
    ensures forall c :: c in LoadChannels(s, backend).0.channels ==> c.provider in s.providerIdMap
  {
    var names := EnabledNames(s.providers);
    assert names <= s.providerIdMap.Keys by {
      forall n | n in names
        ensures n in s.providerIdMap.Keys
      {
        var p :| p in s.providers && p.enabled && p.name == n;
        var k :| 0 <= k < |s.providers| && s.providers[k] == p;
      }
    }
    LoadedChannelsNameEnabledProviders(s, backend);
  }

  /** Every loaded channel names an enabled provider of the list. */
  lemma LoadedChannelsNameEnabledProviders(s: Addon, backend: Backend)
    ensures forall c :: c in LoadChannels(s, backend).0.channels ==> c.provider in EnabledNames(s.providers)
  {
    var slots := PassSlots(s.providers, backend);
    var channels := LoadChannels(s, backend).0.channels;
    PassSlotsFromProviders(s.providers, backend);
    forall c | c in channels
      ensures c.provider in EnabledNames(s.providers)
    {
      var i :| 0 <= i < |channels| && channels[i] == c;
      assert channels[i].provider == slots[i].provider;
      assert slots[i] in slots;
    }
  }
}
