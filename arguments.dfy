/** The argument vector handed to verible-verilog-format:
      --failsafe_success=false [--flagfile=<path>] [--lines=<a>-<b>] -
    where <a>-<b> is the requested range as one-based, inclusive line numbers. */
module Arguments {
  import opened Wrappers
  import opened JsText
  import opened Editor

  const FailsafeFlag := "--failsafe_success=false"
  const FlagfilePrefix := "--flagfile="
  const LinesPrefix := "--lines="
  /** Read the input from standard input. */
  const StdinMarker := "-"

  /** `'--flagfile=' + flagfile`: the prefix followed by the path unchanged. */
  function FlagfileToken(flagfile: string): (token: string)
    ensures HasPrefix(token, FlagfilePrefix) && token[|FlagfilePrefix|..] == flagfile
  {
    FlagfilePrefix + flagfile
  }

  /** `--lines=${range.start.line + 1}-${range.end.line + 1}`: the prefix,
      then two numerals separated by `-`. */
  function LinesToken(range: Range): (token: string)
    ensures HasPrefix(token, LinesPrefix)
    ensures token[|LinesPrefix|..] == NatToDecimal(range.start.line + 1) + "-" + NatToDecimal(range.end.line + 1)
  {
    LinesPrefix + NatToDecimal(range.start.line + 1) + "-" + NatToDecimal(range.end.line + 1)
  }

  /** The argument vector for a resolved flagfile and an optional range:
      it always opens with the failsafe flag and closes with the stdin marker. */
  function Arguments(flagfile: Option<string>, range: Option<Range>): (args: seq<string>)
    ensures 2 <= |args| <= 4 && args[0] == FailsafeFlag && args[|args| - 1] == StdinMarker
  {
    [FailsafeFlag]
    + (if IsTruthy(flagfile) then [FlagfileToken(flagfile.value)] else [])
    + (if range.Some? then [LinesToken(range.value)] else [])
    + [StdinMarker]
  }

  /** `params` built by successive pushes. */
  method BuildParams(flagfile: Option<string>, range: Option<Range>) returns (params: seq<string>)
    ensures params == Arguments(flagfile, range)
  {
    params := [];
    params := params + [FailsafeFlag];
    if IsTruthy(flagfile) {
      params := params + [FlagfileToken(flagfile.value)];
    }
    if range.Some? {
      params := params + [LinesToken(range.value)];
    }
    params := params + [StdinMarker];
  }

  /** Reads a `--lines=<a>-<b>` token back into its two line numbers, the way
      the formatter's command line does. */
  function ParseLinesToken(token: string): Option<(nat, nat)> {
    if !HasPrefix(token, LinesPrefix) then None
    else
      var body := token[|LinesPrefix|..];
      match IndexOf(body, '-')
      case None => None
      case Some(i) =>
        var first, second := body[..i], body[i + 1..];
        if first != [] && second != [] && AllDigits(first) && AllDigits(second) then
          Some((ParseDecimal(first), ParseDecimal(second)))
        else
          None
  }

  lemma LinesTokenShape(range: Range)
    ensures HasPrefix(LinesToken(range), LinesPrefix)
    ensures !HasPrefix(LinesToken(range), FlagfilePrefix)
  {
    var t := LinesToken(range);
    assert t[..|LinesPrefix|] == LinesPrefix;
    assert t[2] == 'l';
  }

  lemma FlagfileTokenShape(flagfile: string)
    ensures HasPrefix(FlagfileToken(flagfile), FlagfilePrefix)
    ensures !HasPrefix(FlagfileToken(flagfile), LinesPrefix)
  {
    var t := FlagfileToken(flagfile);
    assert t[..|FlagfilePrefix|] == FlagfilePrefix;
    assert t[2] == 'f';
  }

  lemma FixedTokensShape()
    ensures !HasPrefix(FailsafeFlag, FlagfilePrefix) && !HasPrefix(FailsafeFlag, LinesPrefix)
    ensures !HasPrefix(StdinMarker, FlagfilePrefix) && !HasPrefix(StdinMarker, LinesPrefix)
  {
    assert FailsafeFlag[3] == 'a';
  }

  /** The range is sent one-based and inclusive: the token reads back as
      `start.line + 1` and `end.line + 1`. */
  lemma {:induction false} LinesTokenRoundTrip(range: Range)
    ensures ParseLinesToken(LinesToken(range)) == Some((range.start.line + 1, range.end.line + 1))
  {
    var a, b := NatToDecimal(range.start.line + 1), NatToDecimal(range.end.line + 1);
    var token := LinesToken(range);
    LinesTokenShape(range);
    var body := token[|LinesPrefix|..];
    assert body == a + "-" + b;
    assert body[|a|] == '-';
    assert forall k :: 0 <= k < |a| ==> body[k] == a[k] && IsDigit(a[k]);
    assert IndexOf(body, '-') == Some(|a|);
    assert body[..|a|] == a;
    assert body[|a| + 1..] == b;
    DecimalRoundTrip(range.start.line + 1);
    DecimalRoundTrip(range.end.line + 1);
  }

  /** The vector always starts with the failsafe flag, ends with the stdin
      marker, and has one extra token per option given. */
  lemma ArgumentsFrame(flagfile: Option<string>, range: Option<Range>)
    ensures var args := Arguments(flagfile, range);
      |args| == 2 + (if IsTruthy(flagfile) then 1 else 0) + (if range.Some? then 1 else 0) &&
      2 <= |args| <= 4 &&
      args[0] == FailsafeFlag && args[|args| - 1] == StdinMarker
  {
  }

  /** `--flagfile=` appears exactly when the resolved flagfile is truthy, at
      index 1 only, carrying that path, and before any `--lines=` token. */
  lemma FlagfileTokenPlacement(flagfile: Option<string>, range: Option<Range>)
    ensures var args := Arguments(flagfile, range);
      (exists i :: 0 <= i < |args| && HasPrefix(args[i], FlagfilePrefix)) <==> IsTruthy(flagfile)
    ensures var args := Arguments(flagfile, range);
      IsTruthy(flagfile) ==>
        args[1] == FlagfileToken(flagfile.value) &&
        forall i :: 0 <= i < |args| && i != 1 ==> !HasPrefix(args[i], FlagfilePrefix)
    ensures var args := Arguments(flagfile, range);
      forall i, j ::
        (0 <= i < |args| && 0 <= j < |args| &&
         HasPrefix(args[i], FlagfilePrefix) && HasPrefix(args[j], LinesPrefix)) ==> i < j
  {
    var args := Arguments(flagfile, range);
    TokenClassification(flagfile, range);
    if IsTruthy(flagfile) {
      assert HasPrefix(args[1], FlagfilePrefix);
    }
    forall i, j | 0 <= i < |args| && 0 <= j < |args| &&
      HasPrefix(args[i], FlagfilePrefix) && HasPrefix(args[j], LinesPrefix)
      ensures i < j
    {
      assert i == 1 && j == 2;
    }
  }

  /** A `--lines=` token appears exactly when a range is given, just before
      the stdin marker, and only there. */
  lemma LinesTokenPlacement(flagfile: Option<string>, range: Option<Range>)
    ensures var args := Arguments(flagfile, range);
      (exists i :: 0 <= i < |args| && HasPrefix(args[i], LinesPrefix)) <==> range.Some?
    ensures var args := Arguments(flagfile, range);
      range.Some? ==>
        args[|args| - 2] == LinesToken(range.value) &&
        forall i :: 0 <= i < |args| && i != |args| - 2 ==> !HasPrefix(args[i], LinesPrefix)
  {
    var args := Arguments(flagfile, range);
    TokenClassification(flagfile, range);
    if range.Some? {
      assert HasPrefix(args[|args| - 2], LinesPrefix);
    }
  }

  /** Which index of the vector holds a flagfile or a lines token. */
  lemma TokenClassification(flagfile: Option<string>, range: Option<Range>)
    ensures var args := Arguments(flagfile, range);
      var f := if IsTruthy(flagfile) then 1 else 0;
      forall i :: 0 <= i < |args| ==>
        (HasPrefix(args[i], FlagfilePrefix) <==> IsTruthy(flagfile) && i == 1) &&
        (HasPrefix(args[i], LinesPrefix) <==> range.Some? && i == 1 + f)
  {
    var args := Arguments(flagfile, range);
    var f := if IsTruthy(flagfile) then 1 else 0;
    FixedTokensShape();
    if IsTruthy(flagfile) {
      FlagfileTokenShape(flagfile.value);
    }
    if range.Some? {
      LinesTokenShape(range.value);
      assert args[1 + f] == LinesToken(range.value);
    }
  }
}
