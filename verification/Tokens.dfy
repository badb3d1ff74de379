/** get_token: the tokens of a command line are its maximal runs of non-delimiter characters. */
module Tokens {
  import opened CStrings
  import opened Wrappers

  predicate IsDelimiter(c: char) {
    c == ' ' || c == '\n' || c == '\0'
  }

  // ----- what one call reads

  /** The first position from i on that holds no delimiter, or the end. */
  function Skip(s: string, i: nat): (b: nat)
    requires i <= |s|
    ensures i <= b <= |s|
    ensures forall k :: i <= k < b ==> IsDelimiter(s[k])
    ensures b < |s| ==> !IsDelimiter(s[b])
    decreases |s| - i
  {
    if i < |s| && IsDelimiter(s[i]) then Skip(s, i + 1) else i
  }

  /** The first position from b on that holds a delimiter, or the end. */
  function RunEnd(s: string, b: nat): (e: nat)
    requires b <= |s|
    ensures b <= e <= |s|
    ensures forall k :: b <= k < e ==> !IsDelimiter(s[k])
    ensures e < |s| ==> IsDelimiter(s[e])
    decreases |s| - b
  {
    if b < |s| && !IsDelimiter(s[b]) then RunEnd(s, b + 1) else b
  }

  /** Where repeated calls from offset i find their tokens, as pairs of begin and end. */
  function Runs(s: string, i: nat): seq<(nat, nat)>
    requires i <= |s|
    decreases |s| - i
  {
    var b := Skip(s, i);
    if b == |s| then []
    else
      var e := RunEnd(s, b);
      [(b, e)] + Runs(s, if e < |s| then e + 1 else e)
  }

  function Texts(s: string, runs: seq<(nat, nat)>): (ts: seq<string>)
    requires forall r <- runs :: r.0 <= r.1 <= |s|
    ensures |ts| == |runs|
  {
    seq(|runs|, k requires 0 <= k < |runs| => s[runs[k].0..runs[k].1])
  }

  lemma {:induction false} RunsInRange(s: string, i: nat)
    requires i <= |s|
    ensures forall r <- Runs(s, i) :: i <= r.0 < r.1 <= |s|
    decreases |s| - i
  {
    var b := Skip(s, i);
    if b < |s| {
      var e := RunEnd(s, b);
      RunsInRange(s, if e < |s| then e + 1 else e);
    }
  }

  function Tokenize(s: string, i: nat): seq<string>
    requires i <= |s|
  {
    RunsInRange(s, i);
    Texts(s, Runs(s, i))
  }

  /** A token holds no space, newline or NUL. */
  ghost predicate IsWord(t: string) {
    t != "" && forall c <- t :: c != ' ' && c != '\n' && c != '\0'
  }

  /** get_token: NULL at the end, else the next token; the offset moves past it and one delimiter. */
  method GetToken(s: string, offset: nat) returns (token: Option<string>, next: nat)
    requires offset <= |s| && '\0' !in s
    ensures offset <= next <= |s|
    ensures token == None <==> Tokenize(s, offset) == []
    ensures token.Some? ==>
              offset < next && token.value != "" && Tokenize(s, offset) == [token.value] + Tokenize(s, next)
    ensures token.Some? ==> IsWord(token.value)
  {
    hide Runs, Texts, Tokenize;
    next := offset;
    while IsDelimiter(At(s, next))
      invariant offset <= next <= |s| && Skip(s, next) == Skip(s, offset)
      decreases |s| - next
    {
      if At(s, next) == '\0' {
        TokenizeNext(s, offset);
        return None, next;
      }
      next := next + 1;
    }
    var beginning := next;
    while !IsDelimiter(At(s, next))
      invariant beginning <= next <= |s| && RunEnd(s, next) == RunEnd(s, beginning)
      decreases |s| - next
    {
      next := next + 1;
    }
    token := Some(s[beginning..next]);
    if At(s, next) != '\0' {
      next := next + 1;
    }
    TokenizeNext(s, offset);
  }

  // ----- exactly the maximal runs

  /** No space, newline or NUL inside, and one of them or an end of the line on either side. */
  ghost predicate MaximalRun(s: string, b: nat, e: nat) {
    && b < e <= |s|
    && (forall k :: b <= k < e ==> s[k] != ' ' && s[k] != '\n' && s[k] != '\0')
    && (b > 0 ==> s[b - 1] == ' ' || s[b - 1] == '\n' || s[b - 1] == '\0')
    && (e < |s| ==> s[e] == ' ' || s[e] == '\n' || s[e] == '\0')
  }

  function After(s: string, i: nat): (n: nat)
    requires i <= |s| && Skip(s, i) < |s|
    ensures i < n <= |s|
  {
    var e := RunEnd(s, Skip(s, i));
    if e < |s| then e + 1 else e
  }

  /** The run found first is maximal, and any other starts later. */
  lemma FirstRun(s: string, i: nat, b: nat, e: nat)
    requires i <= b && MaximalRun(s, b, e)
    ensures Skip(s, i) < |s|
    ensures (b, e) == (Skip(s, i), RunEnd(s, Skip(s, i))) || After(s, i) <= b
  {
    assert !IsDelimiter(s[b]);
    var b0 := Skip(s, i);
    assert b0 <= b;
    var e0 := RunEnd(s, b0);
    assert e0 < |s| ==> IsDelimiter(s[e0]);
  }

  /** Every maximal run from i on is found, and nothing else. */
  lemma {:induction false} RunsAreMaximal(s: string, i: nat, b: nat, e: nat)
    requires i <= |s| && (i == 0 || i == |s| || IsDelimiter(s[i - 1]))
    ensures (b, e) in Runs(s, i) <==> MaximalRun(s, b, e) && i <= b
    decreases |s| - i
  {
    hide RunEnd, Skip, IsDelimiter;
    if MaximalRun(s, b, e) && i <= b {
      FirstRun(s, i, b, e);
    }
    var b0 := Skip(s, i);
    if b0 < |s| {
      RunsAreMaximal(s, After(s, i), b, e);
      FirstIsMaximal(s, i);
      assert Runs(s, i) == [(b0, RunEnd(s, b0))] + Runs(s, After(s, i));
    }
  }

  lemma FirstIsMaximal(s: string, i: nat)
    requires i <= |s| && (i == 0 || i == |s| || IsDelimiter(s[i - 1])) && Skip(s, i) < |s|
    ensures MaximalRun(s, Skip(s, i), RunEnd(s, Skip(s, i)))
    ensures After(s, i) == |s| || IsDelimiter(s[After(s, i) - 1])
  {
  }

  /** The runs are found from left to right, with at least one delimiter between two of them. */
  lemma {:induction false} RunsAscend(s: string, i: nat)
    requires i <= |s|
    ensures forall j, k :: 0 <= j < k < |Runs(s, i)| ==> Runs(s, i)[j].1 < Runs(s, i)[k].0
    decreases |s| - i
  {
    hide RunEnd, IsDelimiter;
    var b := Skip(s, i);
    if b < |s| {
      var n := After(s, i);
      RunsAscend(s, n);
      RunsInRange(s, n);
      if RunEnd(s, b) == |s| { assert Runs(s, n) == []; }
      assert Runs(s, i) == [(b, RunEnd(s, b))] + Runs(s, n);
    }
  }

  /** Tokenizing a whole line gives the texts of its maximal runs in order. */
  lemma TokensAreMaximalRuns(s: string)
    ensures forall r <- Runs(s, 0) :: r.0 <= r.1 <= |s|
    ensures Tokenize(s, 0) == Texts(s, Runs(s, 0))
    ensures forall b: nat, e: nat :: (b, e) in Runs(s, 0) <==> MaximalRun(s, b, e)
    ensures forall j, k :: 0 <= j < k < |Runs(s, 0)| ==> Runs(s, 0)[j].1 < Runs(s, 0)[k].0
  {
    forall b: nat, e: nat ensures (b, e) in Runs(s, 0) <==> MaximalRun(s, b, e) { RunsAreMaximal(s, 0, b, e); }
    RunsAscend(s, 0);
  }

  // ----- tokenizing undoes joining with any delimiters

  ghost predicate IsBlank(sep: string) {
    forall c <- sep :: c == ' ' || c == '\n'
  }

  /** seps[0] + ts[0] + seps[1] + ... + ts[n - 1] + seps[n] */
  function Weave(ts: seq<string>, seps: seq<string>): string
    requires |seps| == |ts| + 1
  {
    if ts == [] then seps[0] else seps[0] + ts[0] + Weave(ts[1..], seps[1..])
  }

  /** Reading past a prefix only shifts positions. */
  lemma {:induction false} SkipShift(p: string, s: string, i: nat)
    requires i <= |s|
    ensures Skip(p + s, |p| + i) == |p| + Skip(s, i)
    decreases |s| - i
  {
    if i < |s| && IsDelimiter(s[i]) {
      SkipShift(p, s, i + 1);
    }
  }

  lemma {:induction false} RunEndShift(p: string, s: string, i: nat)
    requires i <= |s|
    ensures RunEnd(p + s, |p| + i) == |p| + RunEnd(s, i)
    decreases |s| - i
  {
    if i < |s| && !IsDelimiter(s[i]) {
      RunEndShift(p, s, i + 1);
    }
  }

  lemma {:induction false} TokenizeShift(p: string, s: string, i: nat)
    requires i <= |s|
    ensures Tokenize(p + s, |p| + i) == Tokenize(s, i)
    decreases |s| - i
  {
    hide RunEnd, Skip, IsDelimiter, Tokenize;
    SkipShift(p, s, i);
    TokenizeNext(s, i);
    TokenizeNext(p + s, |p| + i);
    var b := Skip(s, i);
    if b < |s| {
      RunEndShift(p, s, b);
      TokenizeShift(p, s, After(s, i));
      assert (p + s)[|p| + b..|p| + RunEnd(s, b)] == s[b..RunEnd(s, b)];
    }
  }

  lemma TokenizeNext(s: string, i: nat)
    requires i <= |s|
    ensures Skip(s, i) == |s| ==> Tokenize(s, i) == []
    ensures Skip(s, i) < |s| ==>
              Tokenize(s, i) == [s[Skip(s, i)..RunEnd(s, Skip(s, i))]] + Tokenize(s, After(s, i))
  {
    hide RunEnd, IsDelimiter;
    if Skip(s, i) < |s| {
      assert Runs(s, i) == [(Skip(s, i), RunEnd(s, Skip(s, i)))] + Runs(s, After(s, i));
    }
  }

  lemma {:induction false} SkipBlank(s: string, n: nat)
    requires n <= |s| && IsBlank(s[..n]) && (n < |s| ==> !IsDelimiter(s[n]))
    ensures Skip(s, 0) == n
  {
    assert forall k :: 0 <= k < n ==> s[k] in s[..n];
    var b := Skip(s, 0);
    if b < n { assert IsDelimiter(s[b]); }
  }

  lemma RunEndWord(s: string, b: nat, e: nat)
    requires b <= e <= |s| && (forall k :: b <= k < e ==> !IsDelimiter(s[k])) && (e < |s| ==> IsDelimiter(s[e]))
    ensures RunEnd(s, b) == e
  {
  }

  /** Joining words with non-empty runs of spaces and newlines between them, and any such run at either end,
      and tokenizing again gives the same words. */
  lemma {:induction false} TokenizeUndoesWeave(ts: seq<string>, seps: seq<string>)
    requires |seps| == |ts| + 1
    requires (forall t <- ts :: IsWord(t)) && (forall sep <- seps :: IsBlank(sep))
    requires forall k :: 0 < k < |ts| ==> seps[k] != ""
    ensures Tokenize(Weave(ts, seps), 0) == ts
    decreases |ts|
  {
    hide Tokenize, Skip, RunEnd;
    var s := Weave(ts, seps);
    TokenizeNext(s, 0);
    if ts == [] {
      assert s[..|s|] == s == seps[0];
      SkipBlank(s, |s|);
    } else {
      var b, e := |seps[0]|, |seps[0]| + |ts[0]|;
      var prefix, rest := seps[0] + ts[0], Weave(ts[1..], seps[1..]);
      assert s == prefix + rest && s[..b] == seps[0] && s[b..e] == ts[0];
      assert IsWord(ts[0]) && forall k :: b <= k < e ==> s[k] == ts[0][k - b];
      assert !IsDelimiter(s[b]) by { assert ts[0][0] in ts[0]; }
      SkipBlank(s, b);
      RestStartsBlank(ts, seps);
      forall k | b <= k < e ensures !IsDelimiter(s[k]) { assert ts[0][k - b] in ts[0]; }
      RunEndWord(s, b, e);
      TokenizeUndoesWeave(ts[1..], seps[1..]);
      if e < |s| {
        assert rest == rest[..1] + rest[1..];
        TokenizeAfterBlank(rest);
        TokenizeShift(prefix, rest, 1);
      } else {
        assert rest == "";
        TokenizeShift(prefix, rest, 0);
      }
    }
  }

  lemma RestStartsBlank(ts: seq<string>, seps: seq<string>)
    requires ts != [] && |seps| == |ts| + 1
    requires forall sep <- seps :: IsBlank(sep)
    requires forall k :: 0 < k < |ts| ==> seps[k] != ""
    ensures var rest := Weave(ts[1..], seps[1..]); rest != "" ==> IsDelimiter(rest[0])
  {
    var sep := seps[1..][0];
    assert sep == seps[1] && sep in seps;
    if sep != "" { assert sep[0] in sep; }
  }

  /** Starting after a leading delimiter or before it makes no difference. */
  lemma TokenizeAfterBlank(s: string)
    requires s != "" && IsDelimiter(s[0])
    ensures Tokenize(s, 1) == Tokenize(s, 0)
  {
    assert Skip(s, 0) == Skip(s, 1);
    assert Runs(s, 0) == Runs(s, 1);
  }
}
