/** `GetChannelStreamProperties`: resolves a host channel UID to a catalog
    channel, re-runs the connectivity gate when the backend was last seen
    unavailable, fetches the manifest URL and appends the playback
    properties, with at most one DRM property in the modern or legacy form. */
module Stream {
  import opened Common
  import opened Json
  import opened Records
  import Gate
  import Drm
  import Channels

  /** Property names and values handed to the host. */
  const InputstreamKey := "inputstream"
  const StreamUrlKey := "streamurl"
  const AdaptiveAddon := "inputstream.adaptive"
  const ModernDrmKey := "inputstream.adaptive.drm"
  const LegacyDrmKey := "inputstream.adaptive.drm_legacy"

  /** The position of the first channel whose number is `uid`. */
  function FindChannel(channels: seq<Channel>, uid: int): (r: Option<nat>)
    ensures r.None? <==> forall k :: 0 <= k < |channels| ==> channels[k].channelNumber != uid
    ensures r.Some? ==> r.value < |channels| && channels[r.value].channelNumber == uid
    ensures r.Some? ==> forall k :: 0 <= k < r.value ==> channels[k].channelNumber != uid
  {
    if |channels| == 0 then None
    else if channels[0].channelNumber == uid then Some(0)
    else match FindChannel(channels[1..], uid)
      case None => None
      case Some(i) => Some(i + 1)
  }

  /** The manifest endpoint's answer: the `manifest_url` string, or `None`
      for an empty or unparseable response, a string `error` member, or a
      missing or non-string `manifest_url`. */
  function ManifestUrl(response: Response): (r: Option<string>)
    ensures r.Some? <==> response.Parsed? && GetString(response.doc, "error").None?
                         && GetString(response.doc, "manifest_url").Some?
    ensures r.Some? ==> r == GetString(response.doc, "manifest_url")
  {
    if !response.Parsed? then None
    else if GetString(response.doc, "error").Some? then None
    else GetString(response.doc, "manifest_url")
  }

  /** The DRM property that follows the stream URL, if any. */
  function DrmProperties(channel: Channel, useModernDrm: bool, response: Response,
                         serialize: Json -> string): (r: seq<Property>)
    ensures |r| <= 1
    ensures !channel.useCdm ==> r == []
    ensures channel.useCdm && useModernDrm ==>
      (|r| == 1 <==> |Drm.GetDrmConfigJson(response).members| > 0)
    ensures |r| == 1 && useModernDrm ==>
      r[0] == (ModernDrmKey, serialize(Drm.GetDrmConfigJson(response)))
    ensures channel.useCdm && !useModernDrm ==>
      (|r| == 1 <==> Drm.LegacyValue(Drm.GetDrmConfig(response)).Some?)
    ensures |r| == 1 && !useModernDrm ==>
      r[0] == (LegacyDrmKey, Drm.LegacyValue(Drm.GetDrmConfig(response)).value)
  {
    if !channel.useCdm then []
    else if useModernDrm then
      var configs := Drm.GetDrmConfigJson(response);
      if |configs.members| > 0 then [(ModernDrmKey, serialize(configs))] else []
    else
      match Drm.LegacyValue(Drm.GetDrmConfig(response))
      case Some(v) => [(LegacyDrmKey, v)]
      case None => []
  }

  datatype StreamResult = StreamResult(state: Addon, error: PvrError, properties: seq<Property>)

  /** The state after the availability check that precedes the manifest
      fetch: unchanged when the backend is available, else after the gate. */
  function CheckBackend(s: Addon, probes: seq<Response>): (r: Addon)
    ensures r == s.(backendAvailable := s.backendAvailable
                                        || exists k :: 0 <= k < MaxRetries && Gate.Answered(probes, k))
  {
    if s.backendAvailable then s else Gate.RetryBackendCall(s, probes).0
  }

  /** `GetChannelStreamProperties` for the channel whose UID is `uid`.
      Every failure returns SERVER_ERROR with `properties` as given; only
      the gate may change the state, and only its availability flag. */
  function GetChannelStreamProperties(s: Addon, uid: int, probes: seq<Response>, backend: Backend,
                                      serialize: Json -> string, properties: seq<Property>)
    : (r: StreamResult)
    ensures FindChannel(s.channels, uid).None? ==> r == StreamResult(s, ServerError, properties)
    ensures r.state == s.(backendAvailable := r.state.backendAvailable)
    ensures FindChannel(s.channels, uid).Some? ==> r.state == CheckBackend(s, probes)
    ensures r.error == ServerError ==> r.properties == properties
    ensures r.error == NoError ==> r.state.backendAvailable
    ensures r.error == NoError <==>
      && FindChannel(s.channels, uid).Some?
      && CheckBackend(s, probes).backendAvailable
      && var ch := s.channels[FindChannel(s.channels, uid).value];
         ManifestUrl(backend(ManifestPath(ch.provider, ch.channelId))).Some?
    ensures r.error == NoError ==>
      var ch := s.channels[FindChannel(s.channels, uid).value];
      var url := ManifestUrl(backend(ManifestPath(ch.provider, ch.channelId))).value;
      r.properties == properties + [(InputstreamKey, AdaptiveAddon), (StreamUrlKey, url)]
                      + DrmProperties(ch, s.useModernDrm, backend(DrmPath(ch.provider, ch.channelId)), serialize)
  {
    match FindChannel(s.channels, uid)
    case None => StreamResult(s, ServerError, properties)
    case Some(i) =>
      var ch := s.channels[i];
      var checked := CheckBackend(s, probes);
      if !checked.backendAvailable then StreamResult(checked, ServerError, properties)
      else
        match ManifestUrl(backend(ManifestPath(ch.provider, ch.channelId)))
        case None => StreamResult(checked, ServerError, properties)
        case Some(url) =>
          var drm := DrmProperties(ch, s.useModernDrm, backend(DrmPath(ch.provider, ch.channelId)), serialize);
          StreamResult(checked, NoError, properties + [(InputstreamKey, AdaptiveAddon), (StreamUrlKey, url)] + drm)
  }

  /** On success the first two appended properties select the adaptive
      input stream and carry the manifest URL, and at most one follows. */
  lemma SuccessAppendsTwoOrThree(s: Addon, uid: int, probes: seq<Response>, backend: Backend,
                                 serialize: Json -> string, properties: seq<Property>)
    requires GetChannelStreamProperties(s, uid, probes, backend, serialize, properties).error == NoError
    ensures var out := GetChannelStreamProperties(s, uid, probes, backend, serialize, properties).properties;
      && out[..|properties|] == properties
      && |properties| + 2 <= |out| <= |properties| + 3
      && out[|properties|] == (InputstreamKey, AdaptiveAddon)
      && out[|properties| + 1].0 == StreamUrlKey
  {
  }

  /** A backend answering with an `error` string fails the call, whatever
      else the response holds. */
  lemma ErrorResponseFails(s: Addon, uid: int, probes: seq<Response>, backend: Backend,
                           serialize: Json -> string, properties: seq<Property>, message: string,
                           rest: seq<(string, Json)>)
    requires FindChannel(s.channels, uid).Some?
    requires var ch := s.channels[FindChannel(s.channels, uid).value];
      backend(ManifestPath(ch.provider, ch.channelId)) == Parsed(JObject([("error", JString(message))] + rest))
    ensures GetChannelStreamProperties(s, uid, probes, backend, serialize, properties).error == ServerError
    ensures GetChannelStreamProperties(s, uid, probes, backend, serialize, properties).properties == properties
  {
  }

  /** With the backend already available the gate is not consulted: the
      probes do not matter and the state is unchanged. */
  lemma AvailableBackendSkipsGate(s: Addon, uid: int, probes: seq<Response>, probes': seq<Response>,
                                  backend: Backend, serialize: Json -> string, properties: seq<Property>)
    requires s.backendAvailable
    ensures GetChannelStreamProperties(s, uid, probes, backend, serialize, properties)
         == GetChannelStreamProperties(s, uid, probes', backend, serialize, properties)
    ensures GetChannelStreamProperties(s, uid, probes, backend, serialize, properties).state == s
  {
  }

  /** A ClearKey channel without a license URL gets the bare key system as
      its legacy DRM property. */
  lemma ClearKeyWithoutUrl(channel: Channel, response: Response, serialize: Json -> string)
    requires channel.useCdm
    requires Drm.GetDrmConfig(response).system == Drm.ClearKey
    requires Drm.GetDrmConfig(response).license.serverUrl == ""
    ensures DrmProperties(channel, false, response, serialize) == [(LegacyDrmKey, "org.w3.clearkey")]
  {
  }

  /** A channel the host was given by `GetChannels` is found again when its
      UID comes back, and the channel found carries the same number. */
  lemma {:induction false} ReportedChannelIsFound(channels: seq<Channel>, idMap: map<string, int>, radio: bool,
                                                  h: Channels.HostChannel)
    requires h in Channels.GetChannels(channels, idMap, radio)
    ensures FindChannel(channels, h.uniqueId).Some?
    ensures channels[FindChannel(channels, h.uniqueId).value].channelNumber == h.channelNumber
  {
    var c :| c in channels && h == Channels.ToHost(c, idMap);
    var k :| 0 <= k < |channels| && channels[k] == c;
    assert channels[k].channelNumber == h.uniqueId;
  }

  /** With two providers listing the same backend number, the shared display
      number resolves to the first provider's channel: the second one cannot
      be played. */
  lemma SharedNumberPlaysFirstProvider(s: Addon, a: Provider, b: Provider, entry: Json, backend: Backend)
    requires s.providers == [a, b] && a.enabled && b.enabled
    requires entry == JObject([("ChannelNumber", JInt(5))])
    requires backend(ChannelsPath(a.name)) == Parsed(JObject([("channels", JArray([entry]))]))
    requires backend(ChannelsPath(b.name)) == Parsed(JObject([("channels", JArray([entry]))]))
    ensures var loaded := Channels.LoadChannels(s, backend).0.channels;
      FindChannel(loaded, 1005) == Some(0) && loaded[0].provider == a.name && loaded[1].provider == b.name
  {
    Channels.SharedBackendNumberCollides(s, a, b, entry, backend);
  }
}
