/** Choosing the media server from its Docker image name: the commands that
    start and stop it and the file extension of its individual recordings. */
module MediaServer {

  import opened Wrappers
  import opened JavaText

  const KurentoImage := "kurento/kurento-media-server"
  const MediasoupImage := "openvidu/mediasoup-controller"

  datatype Kind = Kurento | Mediasoup

  datatype MediaServerError =
    | UnrecognizedImage(image: string)   // logged, then the process exits
    | UnknownMediaServer                 // thrown by the extension lookup

  /** The two image prefixes exclude each other, so the order in which they
      are tested does not matter. */
  lemma PrefixesExclusive(image: string)
    ensures !(StartsWith(image, KurentoImage) && StartsWith(image, MediasoupImage))
  {
    if StartsWith(image, KurentoImage) && |MediasoupImage| <= |image| {
      assert image[0] == image[..|KurentoImage|][0] == 'k';
      assert image[..|MediasoupImage|][0] == image[0];
    }
  }

  /** The media server a start or stop selects for an image. */
  function Select(image: string): (r: Result<Kind, MediaServerError>)
    ensures r == Ok(Kurento) <==> StartsWith(image, KurentoImage)
    ensures r == Ok(Mediasoup) <==> StartsWith(image, MediasoupImage)
    ensures r.Err? <==> !StartsWith(image, KurentoImage) && !StartsWith(image, MediasoupImage)
    ensures r.Err? ==> r.error == UnrecognizedImage(image)
  {
    PrefixesExclusive(image);
    if StartsWith(image, KurentoImage) then Ok(Kurento)
    else if StartsWith(image, MediasoupImage) then Ok(Mediasoup)
    else Err(UnrecognizedImage(image))
  }

  function ImageOf(kind: Kind): string
  {
    match kind
    case Kurento => KurentoImage
    case Mediasoup => MediasoupImage
  }

  const RecordingsVolume := " --volume=/opt/openvidu/recordings:/opt/openvidu/recordings "
  const KurentoRunOptions := " -e KMS_UID=$(id -u) --network=host --detach=true"
  const MediasoupRunPorts :=
    " --network=host --restart=always --detach=true --env=KMS_MIN_PORT=40000 --env=KMS_MAX_PORT=65535"
  const LicenseOption := " --env=OPENVIDU_PRO_LICENSE="
  const LicenseApiOption := " --env=OPENVIDU_PRO_LICENSE_API="
  const MediasoupRunAddresses :=
    " --env=WEBRTC_LISTENIPS_0_ANNOUNCEDIP=172.17.0.1 --env=WEBRTC_LISTENIPS_0_IP=172.17.0.1"

  /** The options of `docker run` for each media server, up to the image. */
  function RunOptions(kind: Kind, license: string, licenseApi: string): string
  {
    match kind
    case Kurento => KurentoRunOptions + RecordingsVolume
    case Mediasoup =>
      MediasoupRunPorts + LicenseOption + license + LicenseApiOption + licenseApi
      + (MediasoupRunAddresses + RecordingsVolume)
  }

  /** The `docker run` command that starts the media server. */
  function StartCommand(image: string, license: string, licenseApi: string): (r: Result<string, MediaServerError>)
    ensures r.Err? <==> Select(image).Err?
    ensures r.Err? ==> r.error == UnrecognizedImage(image)
  {
    match Select(image)
    case Err(e) => Err(e)
    case Ok(kind) => Ok("docker run" + RunOptions(kind, license, licenseApi) + image)
  }

  lemma ContainsMiddle(a: string, b: string, c: string)
    ensures OccursAt(a + b + c, b, |a|)
    ensures |b| <= |a + b + c| - |c| && (a + b + c)[|a + b + c| - |c|..] == c
  {
    assert (a + b + c)[|a|..|a| + |b|] == b;
  }

  /** A recognised image is started by a `docker run` command that names the
      image last. */
  lemma StartCommandRunsImage(image: string, license: string, licenseApi: string)
    requires Select(image).Ok?
    ensures var cmd := StartCommand(image, license, licenseApi).value;
            |image| <= |cmd| && cmd[|cmd| - |image|..] == image && StartsWith(cmd, "docker run")
  {
    var opts := RunOptions(Select(image).value, license, licenseApi);
    assert StartCommand(image, license, licenseApi).value == "docker run" + opts + image;
    ContainsMiddle("docker run", opts, image);
  }

  /** The mediasoup command passes the licence settings on. */
  lemma StartCommandPassesLicense(image: string, license: string, licenseApi: string)
    requires Select(image) == Ok(Mediasoup)
    ensures Contains(StartCommand(image, license, licenseApi).value,
                     LicenseOption + license + LicenseApiOption + licenseApi)
  {
    var env := LicenseOption + license + LicenseApiOption + licenseApi;
    var head := "docker run" + MediasoupRunPorts;
    var tail := MediasoupRunAddresses + RecordingsVolume + image;
    Regroup("docker run", MediasoupRunPorts, LicenseOption, license, LicenseApiOption, licenseApi,
            MediasoupRunAddresses + RecordingsVolume, image);
    ContainsMiddle(head, env, tail);
  }

  /** The Kurento command does not depend on the licence settings. */
  lemma KurentoIgnoresLicense(image: string, license: string, licenseApi: string, license2: string, licenseApi2: string)
    requires Select(image) == Ok(Kurento)
    ensures StartCommand(image, license, licenseApi) == StartCommand(image, license2, licenseApi2)
  {
  }

  lemma Regroup(d: string, p: string, l: string, x: string, la: string, y: string, a: string, img: string)
    ensures d + (p + l + x + la + y + a) + img == (d + p) + (l + x + la + y) + (a + img)
  {
  }

  const GrepParameter := "GREP_PARAMETER"
  const DockerList := "docker ps -a"
  const PrintIdAndImage := " | awk '{ print $1,$2 }'"
  const GrepCommand := " | grep "
  const DockerRemoveHead := DockerList + PrintIdAndImage + GrepCommand
  const DockerRemoveTail := " | awk '{ print $1 }' | xargs -I {} docker rm -f {}"
  /** The removal pipeline with its placeholder, as the harness writes it. */
  const DockerRemoveCmd := DockerRemoveHead + GrepParameter + DockerRemoveTail

  /** The key the stop command greps for: the chosen image prefix and `:`. */
  function GrepKey(kind: Kind): (key: string)
    ensures key == ImageOf(kind) + ":"
  {
    match kind
    case Kurento => KurentoImage + ":"
    case Mediasoup => MediasoupImage + ":"
  }

  /** The command that removes the media-server containers. */
  function StopCommand(image: string): (r: Result<string, MediaServerError>)
    ensures r.Err? <==> Select(image).Err?
  {
    match Select(image)
    case Err(e) => Err(e)
    case Ok(kind) => Ok(ReplaceFirst(DockerRemoveCmd, GrepParameter, GrepKey(kind)))
  }

  /** The grep key takes the place of the one `GREP_PARAMETER` placeholder and
      the rest of the command is left as it is. */
  lemma StopCommandGrepsFor(image: string)
    requires Select(image).Ok?
    ensures StopCommand(image) ==
            Ok(DockerRemoveHead + ImageOf(Select(image).value) + ":" + DockerRemoveTail)
  {
    var k := |DockerRemoveHead|;
    ContainsMiddle(DockerRemoveHead, GrepParameter, DockerRemoveTail);
    assert DockerRemoveCmd[..k] == DockerRemoveHead;
    assert DockerRemoveCmd[k + |GrepParameter|..] == DockerRemoveTail;
    assert Free(DockerRemoveHead, 'G') by {
      FreeConcat(DockerList, PrintIdAndImage, 'G');
      FreeConcat(DockerList + PrintIdAndImage, GrepCommand, 'G');
    }
    forall j | 0 <= j < k ensures DockerRemoveCmd[j] != GrepParameter[0] {
      assert DockerRemoveCmd[j] == DockerRemoveHead[j];
    }
    var kind := Select(image).value;
    NoOccurrenceBefore(DockerRemoveCmd, GrepParameter, k);
    ReplaceFirstAfter(DockerRemoveCmd, GrepParameter, GrepKey(kind), k);
    assert StopCommand(image) == Ok(ReplaceFirst(DockerRemoveCmd, GrepParameter, GrepKey(kind)));
    assert DockerRemoveHead + GrepKey(kind) + DockerRemoveTail ==
           DockerRemoveHead + ImageOf(kind) + ":" + DockerRemoveTail;
  }

  lemma FreeConcat(a: string, b: string, c: char)
    requires Free(a, c) && Free(b, c)
    ensures Free(a + b, c)
  {
    forall i | 0 <= i < |a + b| ensures (a + b)[i] != c {
      if i < |a| { assert (a + b)[i] == a[i]; } else { assert (a + b)[i] == b[i - |a|]; }
    }
  }

  /** The extension of an individual recording: decided by substring, not by
      prefix. */
  function RecordingExtension(image: string): (r: Result<string, MediaServerError>)
    ensures r == Ok("webm") <==> Contains(image, KurentoImage)
    ensures r == Ok("mkv") <==> !Contains(image, KurentoImage) && Contains(image, MediasoupImage)
    ensures r.Err? <==> !Contains(image, KurentoImage) && !Contains(image, MediasoupImage)
    ensures r.Err? ==> r.error == UnknownMediaServer
  {
    if Contains(image, KurentoImage) then Ok("webm")
    else if Contains(image, MediasoupImage) then Ok("mkv")
    else Err(UnknownMediaServer)
  }

  /** A Kurento image records webm; a mediasoup image records mkv unless its
      name also holds the Kurento image name. */
  lemma ExtensionAgreesWithSelection(image: string)
    ensures Select(image) == Ok(Kurento) ==> RecordingExtension(image) == Ok("webm")
    ensures Select(image) == Ok(Mediasoup) && !Contains(image, KurentoImage) ==>
            RecordingExtension(image) == Ok("mkv")
  {
    if StartsWith(image, KurentoImage) {
      StartsWithContains(image, KurentoImage);
    }
    if StartsWith(image, MediasoupImage) {
      StartsWithContains(image, MediasoupImage);
    }
  }

  /** The converse fails: an image name that carries a registry in front of
      the Kurento name has a recording extension, yet starting or stopping
      it is refused. */
  lemma RegistryQualifiedKurento()
    ensures var image := "docker.io/" + KurentoImage + ":6.16.0";
            Select(image).Err? && RecordingExtension(image) == Ok("webm")
  {
    var image := "docker.io/" + KurentoImage + ":6.16.0";
    assert image[10..10 + |KurentoImage|] == KurentoImage;
    assert OccursAt(image, KurentoImage, 10);
    assert image[0] != KurentoImage[0] && image[0] != MediasoupImage[0];
  }
}
