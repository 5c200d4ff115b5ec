/** Mimetype classification of voice notes and audio attachments. */
module AudioTranscriber {
  import opened Strings

  /** The audio formats recognised, in the order they are tried. */
  const AudioFormats: seq<string> := [
    "audio/mpeg", "audio/mp4", "audio/ogg", "audio/wav",
    "audio/webm", "audio/x-m4a", "audio/aac", "audio/opus"]

  /** Every extension the extension chain can produce. */
  const AudioExtensions: seq<string> := ["ogg", "mp3", "m4a", "mp4", "wav", "webm", "aac", "opus"]

  /** `formats.some(f => mimetype.includes(f))`. */
  function SomeContained(mimetype: string, formats: seq<string>): bool
    decreases |formats|
  {
    formats != [] && (Contains(mimetype, formats[0]) || SomeContained(mimetype, formats[1..]))
  }

  lemma {:induction false} SomeContainedIff(mimetype: string, formats: seq<string>)
    ensures SomeContained(mimetype, formats) <==> exists i :: 0 <= i < |formats| && Occurs(mimetype, formats[i])
    decreases |formats|
  {
    if formats != [] {
      SomeContainedIff(mimetype, formats[1..]);
      assert forall i :: 1 <= i < |formats| ==> formats[i] == formats[1..][i - 1];
      ContainsIff(mimetype, formats[0]);
    }
  }

  /** The mimetype contains one of the eight audio formats as a substring. */
  function IsAudio(mimetype: string): bool {
    SomeContained(mimetype, AudioFormats)
  }

  /** `isAudio` is substring membership over the fixed list, in both directions. */
  lemma IsAudioIff(mimetype: string)
    ensures IsAudio(mimetype) <==> exists i :: 0 <= i < |AudioFormats| && Occurs(mimetype, AudioFormats[i])
  {
    SomeContainedIff(mimetype, AudioFormats);
  }

  /** The file extension for an audio mimetype: the first substring test that succeeds, else `ogg`. */
  function AudioExtension(mimetype: string): (r: string)
    ensures r in AudioExtensions
    ensures '.' !in r
  {
    if Contains(mimetype, "ogg") then "ogg"
    else if Contains(mimetype, "mp3") || Contains(mimetype, "mpeg") then "mp3"
    else if Contains(mimetype, "m4a") || Contains(mimetype, "x-m4a") then "m4a"
    else if Contains(mimetype, "mp4") then "mp4"
    else if Contains(mimetype, "wav") then "wav"
    else if Contains(mimetype, "webm") then "webm"
    else if Contains(mimetype, "aac") then "aac"
    else if Contains(mimetype, "opus") then "opus"
    else "ogg"
  }

  /** Containment, not equality: a mimetype with parameters is still audio, and `ogg` is tested before `opus`. */
  lemma ParameterisedVoiceNote()
    ensures IsAudio("audio/ogg; codecs=opus")
    ensures AudioExtension("audio/ogg; codecs=opus") == "ogg"
  {
    var m := "audio/ogg; codecs=opus";
    ContainsAt(m, "ogg", 6);
    EachFormatIsAudio(2);
    assert |AudioFormats[2]| == 9;
    forall k | 0 <= k < 9 ensures m[k] == AudioFormats[2][k] {
      if k < 3 {} else if k < 6 {} else {}
    }
    assert MatchAt(m, AudioFormats[2], 0);
    ContainsAt(m, AudioFormats[2], 0);
    IsAudioIff(m);
  }

  /** `audio/mpeg` is tested by the `mpeg` alternative of the mp3 test. */
  lemma MpegExtension()
    ensures AudioExtension("audio/mpeg") == "mp3"
  {
    ContainsAt("audio/mpeg", "mpeg", 6);
  }

  /** The m4a test precedes the mp4 test, so `audio/x-m4a` is `m4a`. */
  lemma XM4aExtension()
    ensures AudioExtension("audio/x-m4a") == "m4a"
  {
    ContainsAt("audio/x-m4a", "m4a", 8);
  }

  /** Every listed format is audio. */
  lemma EachFormatIsAudio(i: nat)
    requires i < |AudioFormats|
    ensures IsAudio(AudioFormats[i])
  {
    assert MatchAt(AudioFormats[i], AudioFormats[i], 0);
    IsAudioIff(AudioFormats[i]);
  }

  /**
   * The extension is `ogg` exactly when `ogg` occurs or none of the nine
   * other tested substrings does: every other branch yields another extension.
   */
  lemma DefaultExtensionIff(mimetype: string)
    ensures AudioExtension(mimetype) == "ogg"
        <==> Contains(mimetype, "ogg")
             || (&& !Contains(mimetype, "mp3") && !Contains(mimetype, "mpeg")
                 && !Contains(mimetype, "m4a") && !Contains(mimetype, "x-m4a")
                 && !Contains(mimetype, "mp4") && !Contains(mimetype, "wav")
                 && !Contains(mimetype, "webm") && !Contains(mimetype, "aac")
                 && !Contains(mimetype, "opus"))
  {
  }

  /**
   * A mimetype none of whose substrings is recognised, such as `audio/amr`,
   * falls through the extension chain to `ogg`.
   */
  lemma UnlistedAudioExtension()
    ensures AudioExtension("audio/amr") == "ogg"
  {
    var m := "audio/amr";
    AbsentChar(m, "ogg", 1);
    AbsentChar(m, "mp3", 1);
    AbsentChar(m, "mpeg", 1);
    AbsentChar(m, "m4a", 1);
    AbsentChar(m, "x-m4a", 0);
    AbsentChar(m, "mp4", 1);
    AbsentChar(m, "wav", 0);
    AbsentChar(m, "webm", 0);
    AbsentChar(m, "aac", 2);
    AbsentChar(m, "opus", 1);
  }

  /** `audio/amr` contains none of the eight formats. */
  lemma UnlistedAudioType()
    ensures !IsAudio("audio/amr")
  {
    var m := "audio/amr";
    forall i | 0 <= i < |AudioFormats| ensures !Occurs(m, AudioFormats[i]) {
      var f := AudioFormats[i];
      if i == 0 || i == 1 || i == 7 { AbsentChar(m, f, 7); }
      else if i == 2 { AbsentChar(m, f, 7); }
      else if i == 3 || i == 4 { AbsentChar(m, f, 6); }
      else if i == 5 { AbsentChar(m, f, 6); }
      else { AbsentChar(m, f, 8); }
      ContainsIff(m, f);
    }
    IsAudioIff(m);
  }

  /** Every audio mimetype contains `audio/`, since every listed format does. */
  lemma {:induction false} AudioNeedsAudioPrefix(mimetype: string)
    requires IsAudio(mimetype)
    ensures Contains(mimetype, "audio/")
  {
    IsAudioIff(mimetype);
    var i :| 0 <= i < |AudioFormats| && Occurs(mimetype, AudioFormats[i]);
    ContainsIff(mimetype, AudioFormats[i]);
    ContainsAt(AudioFormats[i], "audio/", 0);
    ContainsTransitive(mimetype, AudioFormats[i], "audio/");
  }

  /** The `x-m4a` alternative of the m4a test is subsumed by the `m4a` test. */
  lemma {:induction false} XM4aSubsumed(mimetype: string)
    requires Contains(mimetype, "x-m4a")
    ensures Contains(mimetype, "m4a")
  {
    ContainsAt("x-m4a", "m4a", 2);
    ContainsTransitive(mimetype, "x-m4a", "m4a");
  }
}
