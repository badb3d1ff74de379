/** cmd_to_argc_argv: splitting a command line at single spaces, the inverse of joining with single spaces. */
module CmdSplit {
  import opened CStrings

  predicate IsDelimiter(c: char) {
    c == ' ' || c == '\0'
  }

  function Join(pieces: seq<string>): string
    requires pieces != []
  {
    if |pieces| == 1 then pieces[0] else pieces[0] + " " + Join(pieces[1..])
  }

  function Spaces(s: string): nat {
    if s == "" then 0 else (if s[0] == ' ' then 1 else 0) + Spaces(s[1..])
  }

  ghost predicate SpaceFree(pieces: seq<string>) {
    forall p <- pieces :: ' ' !in p
  }

  lemma {:induction false} JoinSnoc(pieces: seq<string>, last: string)
    requires pieces != []
    ensures Join(pieces + [last]) == Join(pieces) + " " + last
  {
    var all := pieces + [last];
    if |pieces| == 1 {
      assert all[1..] == [last];
    } else {
      assert all[1..] == pieces[1..] + [last];
      JoinSnoc(pieces[1..], last);
    }
  }

  lemma {:induction false} SpacesConcat(s: string, t: string)
    ensures Spaces(s + t) == Spaces(s) + Spaces(t)
  {
    if s == "" {
      assert s + t == t;
    } else {
      assert (s + t)[1..] == s[1..] + t;
      SpacesConcat(s[1..], t);
    }
  }

  lemma {:induction false} NoSpaces(s: string)
    requires ' ' !in s
    ensures Spaces(s) == 0
  {
    if s != "" {
      NoSpaces(s[1..]);
    }
  }

  /** A join of n space-free pieces has n - 1 spaces. */
  lemma {:induction false} SpacesOfJoin(pieces: seq<string>)
    requires pieces != [] && SpaceFree(pieces)
    ensures Spaces(Join(pieces)) + 1 == |pieces|
  {
    NoSpaces(pieces[0]);
    if |pieces| > 1 {
      var rest := pieces[1..];
      assert Join(pieces) == pieces[0] + (" " + Join(rest));
      assert (" " + Join(rest))[1..] == Join(rest);
      SpacesConcat(pieces[0], " " + Join(rest));
      SpacesOfJoin(rest);
    }
  }

  /** The text before the first space determines the first piece. */
  lemma FirstPiece(p: string, q: string, s: string, t: string)
    requires ' ' !in p && ' ' !in q && p + " " + s == q + " " + t
    ensures p == q && s == t
  {
    var all := p + " " + s;
    assert all[|p|] == ' ' && all[|q|] == ' ';
    assert forall k :: 0 <= k < |p| ==> all[k] == p[k];
    assert forall k :: 0 <= k < |q| ==> all[k] == q[k];
    assert |p| == |q|;
    assert p == all[..|p|] && q == all[..|q|];
    assert s == all[|p| + 1..] && t == all[|q| + 1..];
  }

  /** Joining space-free pieces loses nothing. */
  lemma {:induction false} JoinInjective(ps: seq<string>, qs: seq<string>)
    requires ps != [] && qs != [] && SpaceFree(ps) && SpaceFree(qs)
    requires Join(ps) == Join(qs)
    ensures ps == qs
  {
    SpacesOfJoin(ps);
    SpacesOfJoin(qs);
    if |ps| > 1 {
      FirstPiece(ps[0], qs[0], Join(ps[1..]), Join(qs[1..]));
      JoinInjective(ps[1..], qs[1..]);
      assert ps == [ps[0]] + ps[1..] && qs == [qs[0]] + qs[1..];
    }
  }

  /** argv holds the unique space-free pieces whose join is s. */
  method CmdToArgcArgv(s: string) returns (argc: nat, argv: seq<string>)
    requires '\0' !in s
    ensures argc == |argv| == Spaces(s) + 1
    ensures Join(argv) == s && SpaceFree(argv)
    ensures forall pieces :: pieces != [] && SpaceFree(pieces) && Join(pieces) == s ==> argv == pieces
  {
    hide Join, Spaces;
    JoinOne("");
    argc, argv := 0, [];
    var i, beginning := 0, 0;
    assert argv + [s[0..0]] == [""] && s[..0] == "";
    while true
      invariant 0 <= beginning <= i <= |s| && argc == |argv|
      invariant ' ' !in s[beginning..i] && SpaceFree(argv)
      invariant Join(argv + [s[beginning..i]]) == s[..i]
      decreases |s| - i
    {
      if IsDelimiter(At(s, i)) {
        var buffer := new char[i - beginning + 1];
        var j := 0;
        while j < i - beginning
          invariant 0 <= j <= i - beginning
          invariant buffer[..j] == s[beginning..beginning + j]
        {
          buffer[j] := s[beginning + j];
          j := j + 1;
        }
        buffer[j] := '\0';
        argc := argc + 1;
        argv := argv + [buffer[..j]];
        beginning := i + 1;
        if At(s, i) == '\0' {
          break;
        }
        JoinSnoc(argv, "");
        assert s[..i + 1] == s[..i] + " ";
      } else {
        assert s[beginning..i + 1] == s[beginning..i] + [s[i]];
        JoinExtends(argv, s[beginning..i], s[i]);
        assert s[..i + 1] == s[..i] + [s[i]];
      }
      i := i + 1;
    }
    assert s[..|s|] == s;
    SpacesOfJoin(argv);
    forall pieces | pieces != [] && SpaceFree(pieces) && Join(pieces) == s
      ensures argv == pieces
    {
      JoinInjective(argv, pieces);
    }
  }

  lemma JoinOne(p: string)
    ensures Join([p]) == p
  {
  }

  lemma JoinExtends(pieces: seq<string>, last: string, c: char)
    ensures Join(pieces + [last + [c]]) == Join(pieces + [last]) + [c]
  {
    if pieces != [] {
      JoinSnoc(pieces, last);
      JoinSnoc(pieces, last + [c]);
    }
  }
}
