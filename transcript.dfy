/** The transcript mapping of `transcribe_audio` and the segment strings that
    `create_embeddings_and_store` builds from it. */
module Transcript {
  import opened Wrappers

  /** One utterance as the transcription service returns it: a bare speaker label ("A", "B", ...) and its text. */
  datatype Utterance = Utterance(speaker: string, text: string)

  /** The `{speaker, text}` record the application keeps per utterance. */
  datatype SpeakerRecord = SpeakerRecord(speaker: string, text: string)

  const SpeakerPrefix: string := "Speaker "
  const LabelSeparator: string := ": "

  /** Turns the utterances of a transcript into speaker records, in order. */
  method Transcribe(utterances: seq<Utterance>) returns (records: seq<SpeakerRecord>)
    ensures |records| == |utterances|
    ensures forall i :: 0 <= i < |utterances| ==>
      records[i].speaker == SpeakerPrefix + utterances[i].speaker && records[i].text == utterances[i].text
  {
    records := [];
    var k := 0;
    while k < |utterances|
      invariant 0 <= k <= |utterances|
      invariant |records| == k
      invariant forall i :: 0 <= i < k ==>
        records[i].speaker == SpeakerPrefix + utterances[i].speaker && records[i].text == utterances[i].text
    {
      var u := utterances[k];
      records := records + [SpeakerRecord(SpeakerPrefix + u.speaker, u.text)];
      k := k + 1;
    }
  }

  /** The segment string of one record: "<speaker>: <text>". */
  function SegmentText(r: SpeakerRecord): (segment: string) {
    r.speaker + LabelSeparator + r.text
  }

  /** The segment strings of all records (`speaker_sents`), one per record and in order. */
  function SpeakerSents(records: seq<SpeakerRecord>): (sents: seq<string>)
    ensures |sents| == |records|
    ensures forall i :: 0 <= i < |records| ==> sents[i] == SegmentText(records[i])
  {
    seq(|records|, i requires 0 <= i < |records| => SegmentText(records[i]))
  }

  /** End to end, segment i reads "Speaker <label_i>: <text_i>". */
  lemma SegmentOfUtterance(utterances: seq<Utterance>, records: seq<SpeakerRecord>, i: nat)
    requires |records| == |utterances|
    requires forall j :: 0 <= j < |utterances| ==>
      records[j].speaker == SpeakerPrefix + utterances[j].speaker && records[j].text == utterances[j].text
    requires i < |utterances|
    ensures SpeakerSents(records)[i] == "Speaker " + utterances[i].speaker + ": " + utterances[i].text
  {
  }

  /** Position of the first ':' in s, or |s| when there is none. */
  function FirstColon(s: string): (k: nat)
    ensures k <= |s|
    ensures k < |s| ==> s[k] == ':'
    ensures forall i :: 0 <= i < k ==> s[i] != ':'
  {
    if s == [] then 0
    else if s[0] == ':' then 0
    else 1 + FirstColon(s[1..])
  }

  /** Reads a segment string back into its record: the label runs up to the first ':'. */
  function ParseSegment(s: string): (u: Option<Utterance>) {
    if |s| < |SpeakerPrefix| || s[..|SpeakerPrefix|] != SpeakerPrefix then None
    else
      var rest := s[|SpeakerPrefix|..];
      var k := FirstColon(rest);
      if k + 2 <= |rest| && rest[k + 1] == ' ' then Some(Utterance(rest[..k], rest[k + 2..]))
      else None
  }

  /** A segment string determines the utterance it came from, as long as the speaker
      label has no ':' in it (the service's labels are letters). */
  lemma ParseSegmentOfUtterance(u: Utterance)
    requires forall i :: 0 <= i < |u.speaker| ==> u.speaker[i] != ':'
    ensures ParseSegment(SegmentText(SpeakerRecord(SpeakerPrefix + u.speaker, u.text))) == Some(u)
  {
    var s := SegmentText(SpeakerRecord(SpeakerPrefix + u.speaker, u.text));
    assert s == SpeakerPrefix + (u.speaker + LabelSeparator + u.text);
    var rest := s[|SpeakerPrefix|..];
    assert rest == u.speaker + LabelSeparator + u.text;
    var k := FirstColon(rest);
    assert rest[|u.speaker|] == ':';
    assert k == |u.speaker|;
    assert rest[..k] == u.speaker;
    assert rest[k + 2..] == u.text;
  }
}
