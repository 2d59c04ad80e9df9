/**
 * Transcript intake: which inbound speech-service messages become transcript
 * lines and analysis jobs (frontend/src/App.js, lines 314-327).
 */
module Intake {
  import opened Opt

  /** The part of an inbound message that is read: `channel.alternatives[i].transcript`. */
  datatype Alternative = Alternative(transcript: Option<string>)
  datatype Channel = Channel(alternatives: Option<seq<Alternative>>)
  datatype Message = Message(channel: Option<Channel>)

  /**
   * `JSON.parse(msg.data).channel?.alternatives?.[0]?.transcript`; `raw` is `None` when
   * the message is not JSON (the parse error is caught and logged).
   */
  function TranscriptOf(raw: Option<Message>): (t: Option<string>)
    ensures t.Some? <==>
              raw.Some? && raw.value.channel.Some? &&
              raw.value.channel.value.alternatives.Some? &&
              |raw.value.channel.value.alternatives.value| > 0 &&
              raw.value.channel.value.alternatives.value[0].transcript.Some?
    ensures t.Some? ==> t == raw.value.channel.value.alternatives.value[0].transcript
  {
    match raw
    case None => None
    case Some(m) =>
      match m.channel
      case None => None
      case Some(ch) =>
        match ch.alternatives
        case None => None
        case Some(alts) => if |alts| == 0 then None else alts[0].transcript
  }

  /**
   * The characters `String.prototype.trim` removes: the ECMAScript WhiteSpace and
   * LineTerminator code points.
   */
  function IsJsSpace(c: char): (b: bool)
    // the ASCII blanks: tab, line feed, vertical tab, form feed, carriage return, space
    ensures (0x09 <= c as int <= 0x0D) || c == ' ' ==> b
    // no visible ASCII character is white space
    ensures '!' <= c <= '~' ==> !b
    // nor is any character past the byte-order mark
    ensures c as int > 0xFEFF ==> !b
  {
    var n := c as int;
    n == 0x09 || n == 0x0A || n == 0x0B || n == 0x0C || n == 0x0D || n == 0x20 ||
    n == 0xA0 || n == 0x1680 || (0x2000 <= n <= 0x200A) || n == 0x2028 || n == 0x2029 ||
    n == 0x202F || n == 0x205F || n == 0x3000 || n == 0xFEFF
  }

  predicate AllSpace(s: string) {
    forall i :: 0 <= i < |s| ==> IsJsSpace(s[i])
  }

  /** Drops the leading white space. */
  function TrimStart(s: string): (r: string)
    ensures |r| <= |s| && r == s[|s| - |r|..]
    ensures AllSpace(s[..|s| - |r|])
    ensures r == [] || !IsJsSpace(r[0])
    decreases |s|
  {
    if s != [] && IsJsSpace(s[0]) then TrimStart(s[1..]) else s
  }

  /** Drops the trailing white space. */
  function TrimEnd(s: string): (r: string)
    ensures |r| <= |s| && r == s[..|r|]
    ensures AllSpace(s[|r|..])
    ensures r == [] || !IsJsSpace(r[|r| - 1])
    decreases |s|
  {
    if s != [] && IsJsSpace(s[|s| - 1]) then TrimEnd(s[..|s| - 1]) else s
  }

  /** `String.prototype.trim`. */
  function Trim(s: string): (r: string)
    ensures r == [] || (!IsJsSpace(r[0]) && !IsJsSpace(r[|r| - 1]))
    // the middle of `s`, with only white space removed on either side
    ensures exists k :: 0 <= k <= |s| - |r| && Middle(s, k, r)
  {
    var t := TrimStart(s);
    var r := TrimEnd(t);
    TrimIsMiddle(s, t, r);
    r
  }

  /** `r` sits at offset `k` of `s`, and all of `s` around it is white space. */
  predicate Middle(s: string, k: nat, r: string)
    requires k + |r| <= |s|
  {
    r == s[k..k + |r|] && AllSpace(s[..k]) && AllSpace(s[k + |r|..])
  }

  /** Dropping white space from the front and then from the back leaves a middle part. */
  lemma TrimIsMiddle(s: string, t: string, r: string)
    requires |t| <= |s| && t == s[|s| - |t|..] && AllSpace(s[..|s| - |t|])
    requires |r| <= |t| && r == t[..|r|] && AllSpace(t[|r|..])
    ensures Middle(s, |s| - |t|, r)
  {
    var k := |s| - |t|;
    assert s[k..k + |r|] == t[..|r|] by {
      assert forall i :: 0 <= i < |r| ==> s[k..k + |r|][i] == s[k + i] == t[i];
    }
    assert s[k + |r|..] == t[|r|..] by {
      forall i | 0 <= i < |t| - |r|
        ensures s[k + |r|..][i] == t[|r|..][i]
      {
        assert s[k + |r|..][i] == s[k + |r| + i] && t[|r|..][i] == t[|r| + i];
      }
    }
  }

  /** The trimmed text is empty exactly when every character is white space. */
  lemma TrimEmptyIffAllSpace(s: string)
    ensures Trim(s) == [] <==> AllSpace(s)
  {
    var t := TrimStart(s);
    assert s == s[..|s| - |t|] + t;
    if !AllSpace(s) {
      var i :| 0 <= i < |s| && !IsJsSpace(s[i]);
      assert t[i - (|s| - |t|)] == s[i];
    }
  }

  /** `if (text?.trim())`: the text is present and its trimmed form is a non-empty, truthy string. */
  function Accepts(t: Option<string>): (b: bool)
    ensures b <==> t.Some? && !AllSpace(t.value)
  {
    if t.Some? then TrimEmptyIffAllSpace(t.value); Trim(t.value) != "" else false
  }

  /** A message is taken exactly when it carries a transcript with a character that is not white space. */
  lemma AcceptsIffVisible(t: Option<string>)
    ensures Accepts(t) <==> t.Some? && exists i :: 0 <= i < |t.value| && !IsJsSpace(t.value[i])
  {
  }
}
