/**
 * The audio player component: it resolves its `audioSrc` prop into a playable URL
 * (passing `data:`, `blob:` and root-relative sources through, and turning anything
 * else into a Base64-decoded blob it owns), revokes its previous blob URL when the
 * source changes, follows the audio element's events, and offers play/pause, seek
 * and download.
 *
 * `atob`, `URL.createObjectURL` and the audio element's own clock are inputs; the
 * blobs created and the URLs revoked are recorded in ghost state.
 */
module AudioPlayer {
  import opened Wrappers
  import opened JsBuiltins

  /** A `Blob` built from decoded bytes and a MIME type. */
  datatype Blob = Blob(bytes: seq<bv8>, mime: string)

  /** What `togglePlay` asks of the audio element. */
  datatype Command = NoCommand | PlayRequest | PauseRequest

  /** A download handed to `downloadAudio(url, filename)`. */
  datatype Download = Download(url: string, fileName: string)

  const BlobScheme: string := "blob:"
  const DefaultMime: string := "audio/mpeg"

  /** Sources used as they are (lines 27-32). */
  predicate PassesThrough(src: string) {
    StartsWith(src, "data:") || StartsWith(src, BlobScheme) || StartsWith(src, "/")
  }

  /** `bytes[i] = binary.charCodeAt(i)`: a `Uint8Array` keeps the code modulo 256. */
  function ByteOf(c: char): bv8 {
    (c as int % 256) as bv8
  }

  /** The bytes of a decoded binary string, one per character. */
  function BytesOf(binary: string): (bytes: seq<bv8>)
    ensures |bytes| == |binary|
    ensures forall i | 0 <= i < |binary| :: bytes[i] == ByteOf(binary[i])
  {
    seq(|binary|, i requires 0 <= i < |binary| => ByteOf(binary[i]))
  }

  /** The output of `atob` holds characters below 256, and each one is its byte. */
  lemma BytesOfLatin1(binary: string)
    requires forall i | 0 <= i < |binary| :: binary[i] as int < 256
    ensures forall i | 0 <= i < |binary| :: BytesOf(binary)[i] as int == binary[i] as int
  {
  }

  /** Lines 37-40: fill a fresh byte array from the decoded string. */
  method CopyBytes(binary: string) returns (bytes: array<bv8>)
    ensures bytes.Length == |binary|
    ensures forall i | 0 <= i < |binary| :: bytes[i] == ByteOf(binary[i])
  {
    bytes := new bv8[|binary|];
    for i := 0 to |binary|
      invariant forall k | 0 <= k < i :: bytes[k] == ByteOf(binary[k])
    {
      bytes[i] := ByteOf(binary[i]);
    }
  }

  /** `s.split('/')[1]`: the text between the first and second slash, `None` for `undefined`. */
  function SecondSlashField(s: string): (r: Option<string>)
    ensures r.None? <==> '/' !in s
    ensures r.Some? ==> '/' !in r.value
  {
    match IndexOf(s, '/')
    case None => None
    case Some(i) =>
      var rest := s[i + 1..];
      match IndexOf(rest, '/')
      case None => Some(rest)
      case Some(j) => Some(rest[..j])
  }

  /** The subtype of a `type/subtype` MIME type is its second field. */
  lemma SecondSlashFieldOfMime(mainType: string, subtype: string)
    requires '/' !in mainType && '/' !in subtype
    ensures SecondSlashField(mainType + "/" + subtype) == Some(subtype)
  {
    var s := mainType + "/" + subtype;
    assert s[|mainType|] == '/';
    assert s[..|mainType|] == mainType;
    assert IndexOf(s, '/') == Some(|mainType|);
    assert s[|mainType| + 1..] == subtype;
  }

  /** The extension of the default download name: the subtype of `audioType || 'audio/mpeg'`. */
  function DefaultExtension(audioType: Option<string>): (ext: string)
    ensures !StrTruthy(audioType) ==> ext == "mpeg"
    // a given type: its second `/`-separated field, the string "undefined" when it has no `/`
    ensures StrTruthy(audioType) && '/' !in audioType.value ==> ext == "undefined"
    ensures StrTruthy(audioType) && '/' in audioType.value ==>
              ext == SecondSlashField(audioType.value).value && '/' !in ext
  {
    SecondSlashFieldOfMime("audio", "mpeg");
    match SecondSlashField(StrOr(audioType, DefaultMime))
    case None => "undefined"
    case Some(x) => x
  }

  class Player {
    var isPlaying: bool
    var currentTime: int
    var duration: int
    var isLoading: bool
    var audioUrl: string
    /** `audioRef.current` is attached, and that element's own `currentTime`. */
    var hasElement: bool
    var elementTime: int
    /** Every object URL this component created, with the blob behind it. */
    ghost var blobs: map<string, Blob>
    /** Every URL passed to `URL.revokeObjectURL`. */
    ghost var revoked: set<string>

    /** The URLs the player created are `blob:` URLs, and none is left live but the one it shows. */
    ghost predicate NoLeakedBlobs()
      reads this
    {
      && (forall u | u in blobs :: StartsWith(u, BlobScheme))
      && (forall u | u in blobs && u != audioUrl :: u in revoked)
    }

    constructor (hasElement: bool)
      ensures !isPlaying && currentTime == 0 && duration == 0 && isLoading && audioUrl == ""
      ensures this.hasElement == hasElement && elementTime == 0
      ensures blobs == map[] && revoked == {} && NoLeakedBlobs()
    {
      isPlaying, currentTime, duration, isLoading, audioUrl := false, 0, 0, true, "";
      this.hasElement, elementTime := hasElement, 0;
      blobs, revoked := map[], {};
    }

    /**
     * Lines 18-52: the effect run when `audioSrc` or `audioType` changes. `decoded` is what
     * `atob(audioSrc)` returns (`None` when it throws); `objectUrl` is what
     * `URL.createObjectURL` returns, a fresh `blob:` URL.
     */
    method SourceChanged(audioSrc: string, audioType: Option<string>, decoded: Option<string>, objectUrl: string)
      requires NoLeakedBlobs()
      requires StartsWith(objectUrl, BlobScheme) && objectUrl !in blobs
      modifies this
      ensures NoLeakedBlobs()
      ensures StartsWith(old(audioUrl), BlobScheme) ==> revoked == old(revoked) + {old(audioUrl)}
      ensures !StartsWith(old(audioUrl), BlobScheme) ==> revoked == old(revoked)
      ensures audioSrc == "" ==> audioUrl == "" && isLoading == old(isLoading)
      ensures audioSrc != "" ==> isLoading
      ensures audioSrc != "" && PassesThrough(audioSrc) ==> audioUrl == audioSrc
      ensures audioSrc != "" && !PassesThrough(audioSrc) ==>
                if decoded.None? then audioUrl == ""
                else audioUrl == objectUrl
                     && blobs == old(blobs)[objectUrl := Blob(BytesOf(decoded.value), StrOr(audioType, DefaultMime))]
      ensures audioSrc == "" || PassesThrough(audioSrc) || decoded.None? ==> blobs == old(blobs)
      ensures isPlaying == old(isPlaying) && currentTime == old(currentTime) && duration == old(duration)
      ensures hasElement == old(hasElement) && elementTime == old(elementTime)
    {
      if audioUrl != "" && StartsWith(audioUrl, BlobScheme) {
        revoked := revoked + {audioUrl};
      }
      if audioSrc != "" {
        isLoading := true;
        if StartsWith(audioSrc, "data:") || StartsWith(audioSrc, BlobScheme) {
          audioUrl := audioSrc;
        } else if StartsWith(audioSrc, "/") {
          audioUrl := audioSrc;
        } else {
          match decoded
          case None =>
            audioUrl := "";
          case Some(binary) =>
            var bytes := CopyBytes(binary);
            assert bytes[..] == BytesOf(binary);
            var blob := Blob(bytes[..], StrOr(audioType, DefaultMime));
            blobs := blobs[objectUrl := blob];
            audioUrl := objectUrl;
        }
      } else {
        audioUrl := "";
      }
    }

    /** `loadeddata`: the element's duration is known and loading is over. */
    method LoadedData(elementDuration: int)
      modifies this
      ensures duration == elementDuration && !isLoading
      ensures isPlaying == old(isPlaying) && currentTime == old(currentTime) && audioUrl == old(audioUrl)
      ensures elementTime == old(elementTime) && hasElement == old(hasElement)
      ensures blobs == old(blobs) && revoked == old(revoked)
    {
      duration := elementDuration;
      isLoading := false;
    }

    /** `timeupdate`: the displayed time follows the element's. */
    method TimeUpdate()
      modifies this
      ensures currentTime == elementTime
      ensures isPlaying == old(isPlaying) && duration == old(duration) && isLoading == old(isLoading)
      ensures audioUrl == old(audioUrl) && elementTime == old(elementTime) && hasElement == old(hasElement)
      ensures blobs == old(blobs) && revoked == old(revoked)
    {
      currentTime := elementTime;
    }

    /** `ended`: stop, and rewind both the display and the element to 0. */
    method Ended()
      modifies this
      ensures !isPlaying && currentTime == 0 && elementTime == 0
      ensures duration == old(duration) && isLoading == old(isLoading) && audioUrl == old(audioUrl)
      ensures hasElement == old(hasElement) && blobs == old(blobs) && revoked == old(revoked)
    {
      isPlaying := false;
      currentTime := 0;
      elementTime := 0;
    }

    /** `play`. */
    method Play()
      modifies this
      ensures isPlaying
      ensures currentTime == old(currentTime) && duration == old(duration) && isLoading == old(isLoading)
      ensures audioUrl == old(audioUrl) && elementTime == old(elementTime) && hasElement == old(hasElement)
      ensures blobs == old(blobs) && revoked == old(revoked)
    {
      isPlaying := true;
    }

    /** `pause`. */
    method Pause()
      modifies this
      ensures !isPlaying
      ensures currentTime == old(currentTime) && duration == old(duration) && isLoading == old(isLoading)
      ensures audioUrl == old(audioUrl) && elementTime == old(elementTime) && hasElement == old(hasElement)
      ensures blobs == old(blobs) && revoked == old(revoked)
    {
      isPlaying := false;
    }

    /** `togglePlay`: pause while playing, play otherwise, nothing without an element. */
    function TogglePlay(): (cmd: Command)
      reads this
      ensures !hasElement <==> cmd == NoCommand
      ensures hasElement ==> (cmd == PauseRequest <==> isPlaying)
    {
      if !hasElement then NoCommand else if isPlaying then PauseRequest else PlayRequest
    }

    /** `handleSeek`: the chosen value goes to the element and the display as it is, unclamped. */
    method HandleSeek(value: int)
      modifies this
      ensures hasElement ==> currentTime == value && elementTime == value
      ensures !hasElement ==> currentTime == old(currentTime) && elementTime == old(elementTime)
      ensures isPlaying == old(isPlaying) && duration == old(duration) && isLoading == old(isLoading)
      ensures audioUrl == old(audioUrl) && hasElement == old(hasElement)
      ensures blobs == old(blobs) && revoked == old(revoked)
    {
      if !hasElement {
        return;
      }
      elementTime := value;
      currentTime := value;
    }

    /** Lines 145 and 189: the play and download buttons are disabled without a URL or while loading. */
    function ControlsDisabled(): (disabled: bool)
      reads this
      ensures disabled <==> audioUrl == "" || isLoading
    {
      audioUrl == "" || isLoading
    }

    /** Line 215: the seek bar, ranging over `[0, duration]`, is disabled also when the duration is 0. */
    function SeekDisabled(): (disabled: bool)
      reads this
      ensures disabled <==> audioUrl == "" || isLoading || duration == 0
      ensures ControlsDisabled() ==> disabled
    {
      ControlsDisabled() || duration == 0
    }

    /** `handleDownload`: nothing without a URL; the default name ends in the MIME subtype. */
    function HandleDownload(now: nat, fileName: string, audioType: Option<string>): (d: Option<Download>)
      reads this
      ensures d.None? <==> audioUrl == ""
      ensures d.Some? ==> d.value.url == audioUrl
      ensures d.Some? && fileName != "" ==> d.value.fileName == fileName
      ensures d.Some? && fileName == "" ==>
                d.value.fileName == "tts-audio-" + NatToString(now) + "." + DefaultExtension(audioType)
    {
      if audioUrl == "" then None
      else
        var defaultName := "tts-audio-" + NatToString(now) + "." + DefaultExtension(audioType);
        Some(Download(audioUrl, Or(fileName, defaultName)))
    }
  }

  /** A seek past the end is kept as chosen: nothing bounds it but the range input. */
  method SeekPastEnd() returns (p: Player)
    ensures p.currentTime > p.duration
  {
    p := new Player(true);
    p.LoadedData(10);
    p.HandleSeek(25);
  }
}
