/**
 * The names of the temporary WAV files written in file-saving mode:
 * `os.path.join(temp_dir, f"temp{i}.wav")` (main.py:54).
 */
module TempFiles {

  predicate IsDigit(c: char)
  {
    '0' <= c <= '9'
  }

  function DigitChar(d: nat): (c: char)
    requires d < 10
    ensures IsDigit(c)
  {
    ('0' as int + d) as char
  }

  function DigitValue(c: char): (d: nat)
    requires IsDigit(c)
    ensures d < 10
  {
    c as int - '0' as int
  }

  /** Python's `str(n)` for a non-negative integer: its decimal digits, most significant first. */
  function DecimalString(n: nat): (s: string)
    ensures |s| >= 1
    ensures |s| == 1 <==> n < 10
  {
    if n < 10 then [DigitChar(n)]
    else DecimalString(n / 10) + [DigitChar(n % 10)]
  }

  /** The decimal string is a non-empty run of digits without a leading zero. */
  lemma {:induction false} DecimalStringDigits(n: nat)
    ensures |DecimalString(n)| >= 1
    ensures forall i :: 0 <= i < |DecimalString(n)| ==> IsDigit(DecimalString(n)[i])
    ensures |DecimalString(n)| > 1 ==> DecimalString(n)[0] != '0'
  {
    if n >= 10 {
      DecimalStringDigits(n / 10);
    }
  }

  /** The number a string of decimal digits denotes. */
  function DecimalValue(s: string): (n: nat)
    requires forall i :: 0 <= i < |s| ==> IsDigit(s[i])
  {
    if s == [] then 0
    else DecimalValue(s[..|s| - 1]) * 10 + DigitValue(s[|s| - 1])
  }

  /** Reading back the decimal string of `n` gives `n`. */
  lemma {:induction false} DecimalRoundTrip(n: nat)
    ensures var s := DecimalString(n);
      (forall i :: 0 <= i < |s| ==> IsDigit(s[i])) && DecimalValue(s) == n
  {
    DecimalStringDigits(n);
    var s := DecimalString(n);
    if n >= 10 {
      assert s[..|s| - 1] == DecimalString(n / 10);
      DecimalRoundTrip(n / 10);
    }
  }

  lemma DecimalStringInjective(m: nat, n: nat)
    requires DecimalString(m) == DecimalString(n)
    ensures m == n
  {
    DecimalRoundTrip(m);
    DecimalRoundTrip(n);
  }

  /** POSIX `os.path.join(dir, name)` for a relative `name`. */
  function JoinPath(dir: string, name: string): (path: string)
    ensures |dir| + |name| <= |path| <= |dir| + 1 + |name|
  {
    if dir == [] || dir[|dir| - 1] == '/' then dir + name else dir + "/" + name
  }

  /**
   * The joined path starts with the directory and ends with the name; a
   * single '/' is put between them exactly when the directory is non-empty
   * and does not already end in '/'.
   */
  lemma JoinPathParts(dir: string, name: string)
    ensures var path := JoinPath(dir, name);
      && dir <= path
      && path[|path| - |name|..] == name
      && (|path| == |dir| + |name| <==> dir == [] || dir[|dir| - 1] == '/')
      && (|path| == |dir| + 1 + |name| <==> dir != [] && dir[|dir| - 1] != '/')
      && (|path| == |dir| + 1 + |name| ==> path[|dir|] == '/')
  {
  }

  /** The file name written for the utterance with index `i`. */
  function TempName(i: nat): (name: string)
  {
    "temp" + DecimalString(i) + ".wav"
  }

  /** The file name is "temp", then the index's digits, then ".wav". */
  lemma TempNameParts(i: nat)
    ensures var name := TempName(i);
      && |name| == |DecimalString(i)| + 8
      && name[..4] == "temp"
      && name[4..|name| - 4] == DecimalString(i)
      && name[|name| - 4..] == ".wav"
  {
    var name := TempName(i);
    assert name[..4] == "temp";
    assert name[4..|name| - 4] == DecimalString(i);
    assert name[|name| - 4..] == ".wav";
  }

  /** The path the utterance with index `i` is exported to (main.py:54). */
  function TempPath(dir: string, i: nat): (path: string)
    ensures |path| >= |dir| + 9
  {
    JoinPath(dir, TempName(i))
  }

  /** Two utterances with different indices are written to different files. */
  lemma TempPathInjective(dir: string, i: nat, j: nat)
    requires TempPath(dir, i) == TempPath(dir, j)
    ensures i == j
  {
    var a, b := TempName(i), TempName(j);
    var p := TempPath(dir, i);
    JoinPathParts(dir, a);
    JoinPathParts(dir, b);
    TempNameParts(i);
    TempNameParts(j);
    assert |a| == |b|;
    assert a == p[|p| - |a|..] == b;
    DecimalStringInjective(i, j);
  }
}
