/** The record types, constants and adapter state declared by the
    `CPVRUltimate` class header, and the backend endpoint paths. */
module Records {
  import opened Common
  import Json

  datatype Provider = Provider(
    name: string,
    labelText: string,   // the header's `label`
    country: string,
    logo: string,
    enabled: bool,
    uniqueId: int)

  datatype Channel = Channel(
    uniqueId: string,          // "<provider>:<channel id>"
    channelNumber: int,        // host-facing number, also the host's channel UID
    channelName: string,
    iconPath: string,
    provider: string,
    channelId: string,
    isRadio: bool,
    mode: string,
    sessionManifest: bool,
    manifest: string,
    manifestScript: string,
    useCdm: bool,
    cdmMode: string,
    contentType: string,
    country: string,
    language: string,
    streamingFormat: string)

  /** `useHttpGetRequest` is `None` where the C++ struct leaves the field
      uninitialised (no `license` object was read). */
  datatype DrmLicense = DrmLicense(
    serverUrl: string,
    serverCertificate: string,
    reqHeaders: string,
    reqData: string,
    reqParams: string,
    useHttpGetRequest: Option<bool>,
    wrapper: string,
    unwrapper: string)

  /** One key system only. `priority` is `None` where the C++ struct leaves
      it uninitialised (no DRM system was read). */
  datatype DrmConfig = DrmConfig(system: string, priority: Option<int>, license: DrmLicense)

  /** A default-constructed `DRMLicense`: empty strings, flag never set. */
  const EmptyLicense := DrmLicense("", "", "", "", "", None, "", "")

  /** A default-constructed `DRMConfig`. */
  const EmptyDrmConfig := DrmConfig("", None, EmptyLicense)

  /** Connectivity gate budget. */
  const MaxRetries: nat := 10
  const RetryDelayMs: nat := 2000

  /** The adapter's mutable fields that the core reads and writes. */
  datatype Addon = Addon(
    backendAvailable: bool,
    useModernDrm: bool,
    providers: seq<Provider>,
    providerIdMap: map<string, int>,
    channels: seq<Channel>,
    nextChannelNumber: int)

  datatype PvrError = NoError | ServerError

  /** A host stream property: (name, value). */
  type Property = (string, string)

  /** The backend: the response to a GET of each endpoint path. */
  type Backend = string -> Json.Response

  const ProvidersPath := "/api/providers"

  function ChannelsPath(provider: string): string {
    "/api/providers/" + provider + "/channels"
  }

  function ManifestPath(provider: string, channelId: string): string {
    "/api/providers/" + provider + "/channels/" + channelId + "/manifest"
  }

  function DrmPath(provider: string, channelId: string): string {
    "/api/providers/" + provider + "/channels/" + channelId + "/drm"
  }
}
