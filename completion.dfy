/**
 * The string handling around the completion service in main.py:
 * building the prompt (line 75) and cutting the reply at the stop
 * sequence with Python's `str.split(sep, 1)[0]` (line 86).
 */
module Completion {
  import opened Wrappers

  /** `pat` starts at index `k` of `s`. */
  predicate OccursAt(s: string, pat: string, k: int)
  {
    0 <= k && k + |pat| <= |s| && s[k..k + |pat|] == pat
  }

  /** `pat` occurs somewhere in `s` (Python's `pat in s`). */
  ghost predicate Contains(s: string, pat: string)
  {
    exists k :: OccursAt(s, pat, k)
  }

  /** The index of the first occurrence of `pat` in `s`, as `str.find` searches it. */
  function FirstIndex(s: string, pat: string): (r: Option<nat>)
    ensures r.Some? ==> r.value + |pat| <= |s|
    decreases |s|
  {
    if |s| < |pat| then None
    else if s[..|pat|] == pat then Some(0)
    else
      match FirstIndex(s[1..], pat)
      case None => None
      case Some(i) => Some(i + 1)
  }

  /** An occurrence at `j + 1` in `s` is an occurrence at `j` in the tail of `s`. */
  lemma OccursShift(s: string, pat: string)
    requires s != []
    ensures forall j :: 1 <= j ==> (OccursAt(s, pat, j) <==> OccursAt(s[1..], pat, j - 1))
  {
  }

  /**
   * FirstIndex finds the leftmost occurrence: a found index is an
   * occurrence with none before it, and nothing found means `pat` does not
   * occur at all.
   */
  lemma {:induction false} FirstIndexSpec(s: string, pat: string)
    ensures FirstIndex(s, pat).Some? ==> OccursAt(s, pat, FirstIndex(s, pat).value)
    ensures FirstIndex(s, pat).Some? ==>
      forall j :: 0 <= j < FirstIndex(s, pat).value ==> !OccursAt(s, pat, j)
    ensures FirstIndex(s, pat).None? ==> forall j :: !OccursAt(s, pat, j)
    decreases |s|
  {
    if |s| >= |pat| && s[..|pat|] != pat {
      OccursShift(s, pat);
      FirstIndexSpec(s[1..], pat);
    }
  }

  /**
   * Python's `s.split(sep, 1)`: the whole string when `sep` does not occur,
   * otherwise the parts before and after its first occurrence. An empty
   * separator makes Python raise ValueError, hence the requires.
   */
  function SplitOnce(s: string, sep: string): (parts: seq<string>)
    requires sep != []
    ensures |parts| == 1 || |parts| == 2
  {
    match FirstIndex(s, sep)
    case None => [s]
    case Some(k) =>
      FirstIndexSpec(s, sep);
      [s[..k], s[k + |sep|..]]
  }

  /**
   * One part exactly when `sep` is absent, and then it is `s`; otherwise
   * `s` is the first part, `sep` and the second part, with `sep` at its
   * first occurrence.
   */
  lemma SplitOnceSpec(s: string, sep: string)
    requires sep != []
    ensures var parts := SplitOnce(s, sep);
      && (|parts| == 1 <==> !Contains(s, sep))
      && (|parts| == 1 ==> parts[0] == s)
      && (|parts| == 2 ==> parts[0] + sep + parts[1] == s)
      && (|parts| == 2 ==> OccursAt(s, sep, |parts[0]|))
      && (forall j :: 0 <= j < |parts[0]| ==> !OccursAt(s, sep, j))
  {
    FirstIndexSpec(s, sep);
    match FirstIndex(s, sep)
    case None =>
    case Some(k) =>
      assert s[k..k + |sep|] == sep;
      assert s == s[..k] + s[k..k + |sep|] + s[k + |sep|..];
  }

  /** Joins the parts back with the separator: the inverse of SplitOnce. */
  function JoinOnce(parts: seq<string>, sep: string): (s: string)
  {
    if |parts| == 2 then parts[0] + sep + parts[1]
    else if |parts| == 1 then parts[0]
    else []
  }

  /** Splitting at the first separator loses nothing. */
  lemma SplitOnceJoin(s: string, sep: string)
    requires sep != []
    ensures JoinOnce(SplitOnce(s, sep), sep) == s
  {
    SplitOnceSpec(s, sep);
  }

  /**
   * The reply kept from a completion (main.py:86): the text before the
   * first occurrence of `stop`, or all of `text` when `stop` is absent.
   */
  function TrimAtStop(text: string, stop: string): (r: string)
    requires stop != []
    ensures |r| <= |text|
  {
    SplitOnce(text, stop)[0]
  }

  /**
   * The kept reply is a prefix of the completion; it is all of it when
   * `stop` is absent and otherwise ends where the first `stop` begins; it
   * never contains `stop` itself.
   */
  lemma TrimAtStopSpec(text: string, stop: string)
    requires stop != []
    ensures var r := TrimAtStop(text, stop);
      && r <= text
      && (!Contains(text, stop) ==> r == text)
      && (Contains(text, stop) ==> OccursAt(text, stop, |r|))
      && (forall j :: 0 <= j < |r| ==> !OccursAt(text, stop, j))
      && !Contains(r, stop)
  {
    var parts := SplitOnce(text, stop);
    SplitOnceSpec(text, stop);
    if |parts| == 2 {
      assert text == parts[0] + (stop + parts[1]);
    }
    forall j | OccursAt(parts[0], stop, j)
      ensures false
    {
      assert parts[0][j..j + |stop|] == text[j..j + |stop|];
      assert OccursAt(text, stop, j);
    }
  }

  /** When `stop` first occurs at `k`, the kept reply is exactly `text[..k]`. */
  lemma TrimAtFirstOccurrence(text: string, stop: string, k: nat)
    requires stop != []
    requires OccursAt(text, stop, k)
    requires forall j :: 0 <= j < k ==> !OccursAt(text, stop, j)
    ensures TrimAtStop(text, stop) == text[..k]
  {
    TrimAtStopSpec(text, stop);
    assert Contains(text, stop);
  }

  /** Trimming an already trimmed reply changes nothing. */
  lemma TrimIdempotent(text: string, stop: string)
    requires stop != []
    ensures TrimAtStop(TrimAtStop(text, stop), stop) == TrimAtStop(text, stop)
  {
    TrimAtStopSpec(text, stop);
    TrimAtStopSpec(TrimAtStop(text, stop), stop);
  }

  /** In the example reply the stop sequence first starts at index 12. */
  lemma ExampleFirstStop(text: string)
    requires text == "Sure thing! <|stop|> ignored"
    ensures OccursAt(text, "<|stop|>", 12)
    ensures forall j :: 0 <= j < 12 ==> !OccursAt(text, "<|stop|>", j)
  {
    forall j | 0 <= j < 12
      ensures !OccursAt(text, "<|stop|>", j)
    {
      assert text[j..j + 8][0] == text[j] != '<';
    }
    assert text[12..20] == "<|stop|>";
  }

  /** A reply with the stop sequence in the middle keeps only what precedes it. */
  lemma TrimExample()
    ensures TrimAtStop("Sure thing! <|stop|> ignored", "<|stop|>") == "Sure thing! "
  {
    var text := "Sure thing! <|stop|> ignored";
    ExampleFirstStop(text);
    TrimAtFirstOccurrence(text, "<|stop|>", 12);
    assert text[..12] == "Sure thing! ";
  }

  /** The prompt parameters read from the configuration file. */
  datatype PromptSettings = PromptSettings(preamble: string, username: string, startSequence: string)

  /** What precedes the transcript in the prompt: the preamble, a space, the user's name and ": ". */
  function PromptHead(ps: PromptSettings): (head: string)
  {
    ps.preamble + " " + ps.username + ": "
  }

  /**
   * The prompt sent to the completion service for one transcript: the
   * preamble, " ", the user name, ": ", the transcript and the start sequence.
   */
  function ComposePrompt(ps: PromptSettings, transcript: string): (p: string)
    ensures |p| == |ps.preamble| + |ps.username| + |transcript| + |ps.startSequence| + 3
  {
    PromptHead(ps) + transcript + ps.startSequence
  }

  /**
   * Where each piece sits in the prompt: the preamble, then " ", the user
   * name and ": ", then the transcript, and the start sequence last.
   */
  lemma ComposePromptLayout(ps: PromptSettings, transcript: string)
    ensures var p := ComposePrompt(ps, transcript);
      && |p| == |ps.preamble| + 1 + |ps.username| + 2 + |transcript| + |ps.startSequence|
      && p[..|ps.preamble|] == ps.preamble
      && p[|ps.preamble|] == ' '
      && p[|ps.preamble| + 1..|ps.preamble| + 1 + |ps.username|] == ps.username
      && p[|ps.preamble| + 1 + |ps.username|..|PromptHead(ps)|] == ": "
      && p[|PromptHead(ps)|..|PromptHead(ps)| + |transcript|] == transcript
      && p[|PromptHead(ps)| + |transcript|..] == ps.startSequence
  {
    var p := ComposePrompt(ps, transcript);
    assert PromptHead(ps) == ps.preamble + " " + ps.username + ": ";
    assert p[..|ps.preamble|] == ps.preamble;
  }

  /** Recovers the transcript from a prompt built with the same settings. */
  function TranscriptOf(ps: PromptSettings, p: string): (t: Option<string>)
    ensures t.Some? ==> ComposePrompt(ps, t.value) == p
  {
    var h, e := PromptHead(ps), ps.startSequence;
    if |h| + |e| <= |p| && p[..|h|] == h && p[|p| - |e|..] == e then
      var t := p[|h|..|p| - |e|];
      assert p == h + t + e by {
        assert p == p[..|h|] + p[|h|..|p| - |e|] + p[|p| - |e|..];
      }
      Some(t)
    else None
  }

  /** The transcript is read back unchanged from the prompt: nothing is inserted or dropped. */
  lemma PromptRoundTrip(ps: PromptSettings, transcript: string)
    ensures TranscriptOf(ps, ComposePrompt(ps, transcript)) == Some(transcript)
  {
    var p := ComposePrompt(ps, transcript);
    var h := PromptHead(ps);
    assert p == h + transcript + ps.startSequence;
    assert p[..|h|] == h;
    assert p[|p| - |ps.startSequence|..] == ps.startSequence;
    assert p[|h|..|p| - |ps.startSequence|] == transcript;
  }

  /** Different transcripts give different prompts. */
  lemma ComposePromptInjective(ps: PromptSettings, t1: string, t2: string)
    requires ComposePrompt(ps, t1) == ComposePrompt(ps, t2)
    ensures t1 == t2
  {
    PromptRoundTrip(ps, t1);
    PromptRoundTrip(ps, t2);
  }
}
