/**
 * What the game accepts from its prompts: a move string (checked against the
 * allowed codes and their upper-case forms) and a round count.
 */
module MoveInput {
  import opened Wrappers
  import opened Rules

  /** Lower-casing of one character (ASCII letters; every other character is kept). */
  function LowerChar(c: char): (r: char) {
    if 'A' <= c <= 'Z' then (c as int + 32) as char else c
  }

  /** Upper-casing of one character (ASCII letters; every other character is kept). */
  function UpperChar(c: char): (r: char) {
    if 'a' <= c <= 'z' then (c as int - 32) as char else c
  }

  function Lower(s: string): (r: string) {
    seq(|s|, i requires 0 <= i < |s| => LowerChar(s[i]))
  }

  function Upper(s: string): (r: string) {
    seq(|s|, i requires 0 <= i < |s| => UpperChar(s[i]))
  }

  /** The codes of `moves` concatenated, one letter per move. */
  function Join(moves: seq<Move>): (s: string)
    ensures |s| == |moves|
    ensures forall i :: 0 <= i < |moves| ==> s[i] == CodeChar(moves[i])
  {
    if moves == [] then "" else Code(moves[0]) + Join(moves[1..])
  }

  /** The string every accepted input must occur in, e.g. "dkwDKW". */
  function ValidInputs(allowed: seq<Move>): (s: string) {
    Join(allowed) + Upper(Join(allowed))
  }

  /** The string test `s in t`: `s` occurs in `t` as a contiguous run. */
  function Contains(t: string, s: string): (r: bool)
    ensures s <= t ==> r
    ensures r ==> |s| <= |t|
    decreases |t|
  {
    s <= t || (|t| > 0 && Contains(t[1..], s))
  }

  /** `Contains` finds `s` exactly when some slice of `t` equals `s`. */
  lemma {:induction false} ContainsSpec(t: string, s: string)
    ensures Contains(t, s) <==> exists i, j :: 0 <= i <= j <= |t| && t[i..j] == s
    decreases |t|
  {
    if s <= t {
      assert t[0..|s|] == s;
    } else if |t| > 0 {
      ContainsSpec(t[1..], s);
      if Contains(t[1..], s) {
        var i, j :| 0 <= i <= j <= |t| - 1 && t[1..][i..j] == s;
        assert t[i + 1..j + 1] == s;
      } else {
        forall i, j | 0 <= i <= j <= |t| ensures t[i..j] != s {
          if i > 0 {
            var u := t[1..];
            assert |u[i - 1..j - 1]| == |t[i..j]|;
            assert forall k :: 0 <= k < j - i ==> u[i - 1..j - 1][k] == t[i..j][k];
            assert t[i..j] == u[i - 1..j - 1];
          }
        }
      }
    } else {
      forall i, j | 0 <= i <= j <= |t| ensures t[i..j] != s {
        assert t[i..j] == [];
      }
    }
  }

  /**
   * One attempt at the human's move prompt, as the game performs it: the input is
   * accepted when it occurs anywhere in the valid-input string, and it is then
   * returned lower-cased; `None` means the game prompts again.
   */
  function ChooseMoveAsWritten(input: string, allowed: seq<Move>): (r: Option<string>)
    ensures r.Some? <==> exists i, j :: 0 <= i <= j <= |ValidInputs(allowed)| && ValidInputs(allowed)[i..j] == input
    ensures r.Some? ==> r.value == Lower(input)
  {
    ContainsSpec(ValidInputs(allowed), input);
    if Contains(ValidInputs(allowed), input) then Some(Lower(input)) else None
  }

  /** The first allowed move whose code is `c`, if any. */
  function FindMove(c: char, allowed: seq<Move>): (r: Option<Move>)
    ensures r.Some? ==> r.value in allowed && CodeChar(r.value) == c
    ensures r.None? ==> forall m :: m in allowed ==> CodeChar(m) != c
  {
    if allowed == [] then None
    else if CodeChar(allowed[0]) == c then Some(allowed[0])
    else FindMove(c, allowed[1..])
  }

  /** A character lower-cases to a move code exactly when it is that code or its upper case. */
  lemma LowerCharToCode(c: char, m: Move)
    ensures LowerChar(c) == CodeChar(m) <==> c == CodeChar(m) || c == UpperChar(CodeChar(m))
  {
  }

  /**
   * One attempt at the move prompt as evidently intended: exactly one letter, one
   * of the allowed codes in either case; the result is that move.
   */
  function AcceptMove(input: string, allowed: seq<Move>): (r: Option<Move>)
    ensures r.Some? <==> |input| == 1 && exists m :: m in allowed && (input == Code(m) || input == Upper(Code(m)))
    ensures r.Some? ==> r.value in allowed && Lower(input) == Code(r.value)
  {
    if |input| == 1 then
      var c := input[0];
      assert forall m :: (input == Code(m) || input == Upper(Code(m))) <==> LowerChar(c) == CodeChar(m) by {
        forall m ensures (input == Code(m) || input == Upper(Code(m))) <==> LowerChar(c) == CodeChar(m) {
          LowerCharToCode(c, m);
          assert input == [c];
        }
      }
      var r := FindMove(LowerChar(c), allowed);
      assert r.Some? ==> Lower(input) == [LowerChar(c)];
      r
    else
      None
  }

  /** Every allowed code is accepted as written, in lower and upper case, and comes back lower case. */
  lemma {:induction false} AsWrittenAcceptsCodes(m: Move, allowed: seq<Move>)
    requires m in allowed
    ensures ChooseMoveAsWritten(Code(m), allowed) == Some(Code(m))
    ensures ChooseMoveAsWritten(Upper(Code(m)), allowed) == Some(Code(m))
  {
    var k :| 0 <= k < |allowed| && allowed[k] == m;
    var v := ValidInputs(allowed);
    var n := |allowed|;
    assert v[k..k + 1] == Code(m);
    assert v[n + k..n + k + 1] == Upper(Code(m));
    assert Lower(Code(m)) == Code(m);
    assert Lower(Upper(Code(m))) == Code(m);
  }

  /** A one-letter run of the valid-input string is an allowed code, in lower or upper case. */
  lemma OneLetterOfValidInputs(input: string, allowed: seq<Move>, i: int)
    requires |input| == 1 && 0 <= i < |ValidInputs(allowed)|
    requires ValidInputs(allowed)[i..i + 1] == input
    ensures exists m :: m in allowed && (input == Code(m) || input == Upper(Code(m)))
  {
    var n := |allowed|;
    var j := Join(allowed);
    assert input == [ValidInputs(allowed)[i]];
    if i < n {
      assert input == Code(allowed[i]);
    } else {
      var m := allowed[i - n];
      assert ValidInputs(allowed)[i] == Upper(j)[i - n] == UpperChar(CodeChar(m));
      assert input == Upper(Code(m));
    }
  }

  /**
   * On one-letter inputs the written test and the intended one agree: both accept
   * the same letters and both return the code of the same move.
   */
  lemma AcceptMoveAgreesOnOneLetter(input: string, allowed: seq<Move>)
    requires |input| == 1
    ensures AcceptMove(input, allowed).Some? <==> ChooseMoveAsWritten(input, allowed).Some?
    ensures AcceptMove(input, allowed).Some? ==> ChooseMoveAsWritten(input, allowed) == Some(Code(AcceptMove(input, allowed).value))
  {
    var r := AcceptMove(input, allowed);
    if r.Some? {
      AsWrittenAcceptsCodes(r.value, allowed);
    } else if ChooseMoveAsWritten(input, allowed).Some? {
      var v := ValidInputs(allowed);
      var i, j :| 0 <= i <= j <= |v| && v[i..j] == input;
      OneLetterOfValidInputs(input, allowed, i);
      assert false;
    }
  }

  /** The written test also lets through inputs that are not a single move code. */
  lemma AsWrittenAcceptsNonMoves()
    ensures ChooseMoveAsWritten("", NormalMoves) == Some("")
    ensures ChooseMoveAsWritten("dk", NormalMoves) == Some("dk")
    ensures ChooseMoveAsWritten("wD", NormalMoves) == Some("wd")
    ensures AcceptMove("", NormalMoves).None? && AcceptMove("dk", NormalMoves).None? && AcceptMove("wD", NormalMoves).None?
  {
    var v := ValidInputs(NormalMoves);
    assert v == "dkwDKW";
    assert v[0..0] == "";
    assert v[0..2] == "dk";
    assert v[2..4] == "wD";
    assert Lower("dk") == "dk";
    assert Lower("wD") == "wd";
  }

  /** At the bonus prompt the written test also lets through "", "kw" and "rD" (returned as "rd"). */
  lemma AsWrittenAcceptsNonMovesInBonus()
    ensures ChooseMoveAsWritten("", BonusMoves) == Some("")
    ensures ChooseMoveAsWritten("kw", BonusMoves) == Some("kw")
    ensures ChooseMoveAsWritten("rD", BonusMoves) == Some("rd")
  {
    var v := ValidInputs(BonusMoves);
    assert v == "dkwrDKWR";
    assert v[0..0] == "";
    assert v[1..3] == "kw";
    assert v[3..5] == "rD";
    assert Lower("kw") == "kw";
    assert Lower("rD") == "rd";
  }

  /**
   * One attempt at the round-count prompt. `parsed` is the outcome of converting the
   * typed text to an integer (`None` when the conversion fails); the count is
   * accepted only when it is greater than zero.
   */
  function AcceptRounds(parsed: Option<int>): (r: Option<nat>)
    ensures r.Some? <==> parsed.Some? && parsed.value > 0
    ensures r.Some? ==> r.value == parsed.value && r.value >= 1
  {
    match parsed
    case Some(n) => if n > 0 then Some(n) else None
    case None => None
  }
}
