/** Removal of terminal colour codes: the substitution of every match of the
    pattern `ESC [ [0-9;]* m` (an SGR "select graphic rendition" sequence) by
    nothing, scanning left to right as `re.sub` does. The kernel executor
    cleans error traces with it and the GitHub wrapper cleans `gh` output. */
module Ansi {

  const Esc: char := '\U{001B}'

  /** The characters the pattern allows between `ESC [` and `m`. */
  const Params: set<char> := {'0', '1', '2', '3', '4', '5', '6', '7', '8', '9', ';'}

  /** End of the longest run of parameter characters starting at `k`. */
  function ParamsEnd(s: string, k: nat): (j: nat)
    requires k <= |s|
    ensures k <= j <= |s|
    ensures forall i | k <= i < j :: s[i] in Params
    ensures j < |s| ==> s[j] !in Params
    decreases |s| - k
  {
    if k < |s| && s[k] in Params then ParamsEnd(s, k + 1) else k
  }

  /** `s` starts with a match of the pattern. The run of parameters is maximal,
      and since no parameter is an `m`, backtracking cannot find a shorter match. */
  predicate SgrAt(s: string) {
    && |s| >= 2 && s[0] == Esc && s[1] == '['
    && ParamsEnd(s, 2) < |s| && s[ParamsEnd(s, 2)] == 'm'
  }

  function SgrLength(s: string): (n: nat)
    requires SgrAt(s)
    ensures 3 <= n <= |s|
  {
    ParamsEnd(s, 2) + 1
  }

  /** `re.sub(r"\x1b\[[0-9;]*m", "", s)`: a match is dropped and the scan goes on
      after it; any other character is kept and the scan moves one step. */
  function StripAnsi(s: string): (r: string)
    ensures |r| <= |s|
    ensures Esc !in s ==> r == s
    decreases |s|
  {
    if s == [] then []
    else if SgrAt(s) then StripAnsi(s[SgrLength(s)..])
    else [s[0]] + StripAnsi(s[1..])
  }

  /** The sequence that sets colour attributes `params`. */
  function Sgr(params: string): string {
    [Esc, '['] + params + ['m']
  }

  lemma {:induction false} ParamsEndAfter(params: string, t: string, k: nat)
    requires forall i | 0 <= i < |params| :: params[i] in Params
    requires 2 <= k <= 2 + |params|
    ensures ParamsEnd(Sgr(params) + t, k) == 2 + |params|
    decreases 2 + |params| - k
  {
    var s := Sgr(params) + t;
    if k < 2 + |params| {
      assert s[k] == params[k - 2];
      ParamsEndAfter(params, t, k + 1);
    } else {
      assert s[k] == 'm';
    }
  }

  /** A colour sequence in front of `t` disappears entirely. */
  lemma {:induction false} StripDropsSgr(params: string, t: string)
    requires forall i | 0 <= i < |params| :: params[i] in Params
    ensures StripAnsi(Sgr(params) + t) == StripAnsi(t)
  {
    var s := Sgr(params) + t;
    ParamsEndAfter(params, t, 2);
    assert SgrAt(s);
    assert s[SgrLength(s)..] == t;
  }

  /** Text without an escape character passes through unchanged, whatever follows it. */
  lemma {:induction false} StripKeepsPlain(a: string, t: string)
    requires Esc !in a
    ensures StripAnsi(a + t) == a + StripAnsi(t)
    decreases |a|
  {
    if a != [] {
      var s := a + t;
      assert s[0] == a[0] && s[0] != Esc;
      assert !SgrAt(s);
      assert s[1..] == a[1..] + t;
      calc {
        StripAnsi(s);
        [a[0]] + StripAnsi(a[1..] + t);
        { StripKeepsPlain(a[1..], t); }
        [a[0]] + (a[1..] + StripAnsi(t));
        { assert a == [a[0]] + a[1..]; }
        a + StripAnsi(t);
      }
    } else {
      assert a + t == t;
    }
  }

  /** Colouring plain pieces and stripping the result gives the plain text back:
      `StripAnsi(Sgr(p0) + a0 + Sgr(p1) + a1 + ...) == a0 + a1 + ...`. */
  function Colored(params: seq<string>, pieces: seq<string>): string
    requires |params| == |pieces|
    decreases |pieces|
  {
    if pieces == [] then [] else Sgr(params[0]) + pieces[0] + Colored(params[1..], pieces[1..])
  }

  function Plain(pieces: seq<string>): string
    decreases |pieces|
  {
    if pieces == [] then [] else pieces[0] + Plain(pieces[1..])
  }

  lemma {:induction false} StripColored(params: seq<string>, pieces: seq<string>)
    requires |params| == |pieces|
    requires forall k, i | 0 <= k < |params| && 0 <= i < |params[k]| :: params[k][i] in Params
    requires forall k | 0 <= k < |pieces| :: Esc !in pieces[k]
    ensures StripAnsi(Colored(params, pieces)) == Plain(pieces)
    decreases |pieces|
  {
    if pieces != [] {
      var rest := Colored(params[1..], pieces[1..]);
      assert Colored(params, pieces) == Sgr(params[0]) + (pieces[0] + rest);
      StripDropsSgr(params[0], pieces[0] + rest);
      StripKeepsPlain(pieces[0], rest);
      StripColored(params[1..], pieces[1..]);
    }
  }
}
