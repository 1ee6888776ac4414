/** The static settings of the harness and `loadEnvironmentVariables`, which
    overrides them from the system properties. */
module Environment {

  import opened Wrappers
  import opened JavaText
  import opened Config
  import MediaServer

  /** The names of the system properties the harness reads. */
  const AppUrlKey := "APP_URL"
  const ExternalCustomLayoutUrlKey := "EXTERNAL_CUSTOM_LAYOUT_URL"
  const ExternalCustomLayoutParamsKey := "EXTERNAL_CUSTOM_LAYOUT_PARAMS"
  const OpenViduUrlKey := "OPENVIDU_URL"
  const OpenViduSecretKey := "OPENVIDU_SECRET"
  const MediaServerImageKey := "MEDIA_SERVER_IMAGE"
  const ChromeVersionKey := "CHROME_VERSION"
  const FirefoxVersionKey := "FIREFOX_VERSION"
  const OperaVersionKey := "OPERA_VERSION"
  const EdgeVersionKey := "EDGE_VERSION"
  const OpenViduProLicenseKey := "OPENVIDU_PRO_LICENSE"
  const OpenViduProLicenseApiKey := "OPENVIDU_PRO_LICENSE_API"

  const DefaultOpenViduSecret := "MY_SECRET"
  const DefaultOpenViduUrl := "https://localhost:4443/"
  const DefaultAppUrl := "http://localhost:4200/"
  const DefaultExternalCustomLayoutUrl := "http://localhost:5555"
  const DefaultProLicense := "not_valid"
  const DefaultProLicenseApi := "not_valid"
  const DefaultExternalCustomLayoutParams := "sessionId,CUSTOM_LAYOUT_SESSION,secret,MY_SECRET"
  const DefaultBrowserVersion := "latest"

  /** The static settings of the harness, gathered in one object. */
  class TestConfig {
    var appUrl: string
    var externalCustomLayoutUrl: string
    var externalCustomLayoutParams: string
    var openViduUrl: string
    var openViduSecret: string
    var mediaServerImage: string
    var chromeVersion: string
    var firefoxVersion: string
    var operaVersion: string
    var edgeVersion: string
    var proLicense: string
    var proLicenseApi: string

    constructor ()
      ensures appUrl == DefaultAppUrl && openViduUrl == DefaultOpenViduUrl
      ensures openViduSecret == DefaultOpenViduSecret
      ensures externalCustomLayoutUrl == DefaultExternalCustomLayoutUrl
      ensures externalCustomLayoutParams == DefaultExternalCustomLayoutParams
      ensures mediaServerImage == MediaServer.KurentoImage + ":6.16.0"
      ensures chromeVersion == firefoxVersion == operaVersion == edgeVersion == DefaultBrowserVersion
      ensures proLicense == DefaultProLicense && proLicenseApi == DefaultProLicenseApi
    {
      appUrl := DefaultAppUrl;
      externalCustomLayoutUrl := DefaultExternalCustomLayoutUrl;
      externalCustomLayoutParams := DefaultExternalCustomLayoutParams;
      openViduUrl := DefaultOpenViduUrl;
      openViduSecret := DefaultOpenViduSecret;
      mediaServerImage := MediaServer.KurentoImage + ":6.16.0";
      chromeVersion := DefaultBrowserVersion;
      firefoxVersion := DefaultBrowserVersion;
      operaVersion := DefaultBrowserVersion;
      edgeVersion := DefaultBrowserVersion;
      proLicense := DefaultProLicense;
      proLicenseApi := DefaultProLicenseApi;
    }

    /** Reads the system properties in the harness's order. Odd layout
        parameters fail the run on the spot (`ok` is false): the two URLs read
        before them are already updated, the layout parameters keep their old
        value and nothing after them is read. */
    method LoadEnvironmentVariables(props: map<string, string>) returns (ok: bool)
      modifies this
      ensures appUrl == OverridePresent(Property(props, AppUrlKey), old(appUrl))
      ensures externalCustomLayoutUrl ==
              OverridePresent(Property(props, ExternalCustomLayoutUrlKey), old(externalCustomLayoutUrl))
      ensures ok <==> !(ExternalCustomLayoutParamsKey in props &&
                        LayoutParams(props[ExternalCustomLayoutParamsKey]).Err?)
      ensures externalCustomLayoutParams ==
              if ExternalCustomLayoutParamsKey in props && ok
              then LayoutParams(props[ExternalCustomLayoutParamsKey]).value
              else old(externalCustomLayoutParams)
      ensures ok ==> ServerSettingsLoaded(props)
      ensures !ok ==> ServerSettingsKept()
    {
      ok := LoadLayoutSettings(props);
      if ok {
        LoadServerSettings(props);
      }
    }

    /** Every setting read after the layout parameters has been overridden
        from `props` by its own rule. */
    twostate predicate ServerSettingsLoaded(props: map<string, string>)
      reads this
    {
      && openViduUrl == OverridePresent(Property(props, OpenViduUrlKey), old(openViduUrl))
      && openViduSecret == OverridePresent(Property(props, OpenViduSecretKey), old(openViduSecret))
      && mediaServerImage == OverridePresent(Property(props, MediaServerImageKey), old(mediaServerImage))
      && chromeVersion == OverrideVersion(Property(props, ChromeVersionKey), old(chromeVersion))
      && firefoxVersion == OverrideVersion(Property(props, FirefoxVersionKey), old(firefoxVersion))
      && operaVersion == OverrideVersion(Property(props, OperaVersionKey), old(operaVersion))
      && edgeVersion == OverrideVersion(Property(props, EdgeVersionKey), old(edgeVersion))
      && proLicense == OverridePresent(Property(props, OpenViduProLicenseKey), old(proLicense))
      && proLicenseApi == OverridePresent(Property(props, OpenViduProLicenseApiKey), old(proLicenseApi))
    }

    /** No setting read after the layout parameters has changed. */
    twostate predicate ServerSettingsKept()
      reads this
    {
      && openViduUrl == old(openViduUrl) && openViduSecret == old(openViduSecret)
      && mediaServerImage == old(mediaServerImage)
      && chromeVersion == old(chromeVersion) && firefoxVersion == old(firefoxVersion)
      && operaVersion == old(operaVersion) && edgeVersion == old(edgeVersion)
      && proLicense == old(proLicense) && proLicenseApi == old(proLicenseApi)
    }

    /** The settings read up to the layout parameters, which may fail. */
    method LoadLayoutSettings(props: map<string, string>) returns (ok: bool)
      modifies this`appUrl, this`externalCustomLayoutUrl, this`externalCustomLayoutParams
      ensures appUrl == OverridePresent(Property(props, AppUrlKey), old(appUrl))
      ensures externalCustomLayoutUrl ==
              OverridePresent(Property(props, ExternalCustomLayoutUrlKey), old(externalCustomLayoutUrl))
      ensures ok <==> !(ExternalCustomLayoutParamsKey in props &&
                        LayoutParams(props[ExternalCustomLayoutParamsKey]).Err?)
      ensures externalCustomLayoutParams ==
              if ExternalCustomLayoutParamsKey in props && ok
              then LayoutParams(props[ExternalCustomLayoutParamsKey]).value
              else old(externalCustomLayoutParams)
    {
      appUrl := OverridePresent(Property(props, AppUrlKey), appUrl);
      externalCustomLayoutUrl :=
        OverridePresent(Property(props, ExternalCustomLayoutUrlKey), externalCustomLayoutUrl);
      if ExternalCustomLayoutParamsKey in props {
        var params := Split(props[ExternalCustomLayoutParamsKey], ',');
        var built := BuildLayoutParams(params);
        if built.Err? {
          return false;
        }
        externalCustomLayoutParams := built.value;
      }
      return true;
    }

    /** The settings read after the layout parameters. */
    method LoadServerSettings(props: map<string, string>)
      modifies this
      ensures appUrl == old(appUrl) && externalCustomLayoutUrl == old(externalCustomLayoutUrl)
      ensures externalCustomLayoutParams == old(externalCustomLayoutParams)
      ensures ServerSettingsLoaded(props)
    {
      LoadServerUrls(props);
      LoadBrowserVersions(props);
      LoadLicenses(props);
    }

    /** The server URL, its secret and the media-server image. */
    method LoadServerUrls(props: map<string, string>)
      modifies this`openViduUrl, this`openViduSecret, this`mediaServerImage
      ensures openViduUrl == OverridePresent(Property(props, OpenViduUrlKey), old(openViduUrl))
      ensures openViduSecret == OverridePresent(Property(props, OpenViduSecretKey), old(openViduSecret))
      ensures mediaServerImage == OverridePresent(Property(props, MediaServerImageKey), old(mediaServerImage))
    {
      openViduUrl := OverridePresent(Property(props, OpenViduUrlKey), openViduUrl);
      openViduSecret := OverridePresent(Property(props, OpenViduSecretKey), openViduSecret);
      mediaServerImage := OverridePresent(Property(props, MediaServerImageKey), mediaServerImage);
    }

    /** The browser versions, each replaced only by a non-blank property. */
    method LoadBrowserVersions(props: map<string, string>)
      modifies this`chromeVersion, this`firefoxVersion, this`operaVersion, this`edgeVersion
      ensures chromeVersion == OverrideVersion(Property(props, ChromeVersionKey), old(chromeVersion))
      ensures firefoxVersion == OverrideVersion(Property(props, FirefoxVersionKey), old(firefoxVersion))
      ensures operaVersion == OverrideVersion(Property(props, OperaVersionKey), old(operaVersion))
      ensures edgeVersion == OverrideVersion(Property(props, EdgeVersionKey), old(edgeVersion))
    {
      chromeVersion := OverrideVersion(Property(props, ChromeVersionKey), chromeVersion);
      firefoxVersion := OverrideVersion(Property(props, FirefoxVersionKey), firefoxVersion);
      operaVersion := OverrideVersion(Property(props, OperaVersionKey), operaVersion);
      edgeVersion := OverrideVersion(Property(props, EdgeVersionKey), edgeVersion);
    }

    /** The licence settings. */
    method LoadLicenses(props: map<string, string>)
      modifies this`proLicense, this`proLicenseApi
      ensures proLicense == OverridePresent(Property(props, OpenViduProLicenseKey), old(proLicense))
      ensures proLicenseApi == OverridePresent(Property(props, OpenViduProLicenseApiKey), old(proLicenseApi))
    {
      proLicense := OverridePresent(Property(props, OpenViduProLicenseKey), proLicense);
      proLicenseApi := OverridePresent(Property(props, OpenViduProLicenseApiKey), proLicenseApi);
    }
  }
}
