/** What the left-to-right parse means: a reading of the whole line at once. */
module CmdMeaning {
  import opened Tokens
  import opened CmdParser

  // ----- what a token is, by its text

  /** The empty text, a single or double dash, and whatever does not begin with a dash. */
  predicate PlainText(text: string) {
    text == "" || text == "-" || text == "--" || text[0] != '-'
  }

  /** --long_name or -short_name of the option; a lone "--" names nothing, even an option without a long name. */
  predicate Names(option: OptionTemplate, text: string) {
    || (option.longName != "" && text == "--" + option.longName)
    || (option.shortName != '-' && text == "-" + [option.shortName])
  }

  /** Of several options with that name the first one counts. */
  ghost predicate NamesFirst(options: seq<OptionTemplate>, text: string, i: nat) {
    i < |options| && Names(options[i], text) && forall j :: 0 <= j < i ==> !Names(options[j], text)
  }

  ghost predicate NamesNone(options: seq<OptionTemplate>, text: string) {
    !PlainText(text) && forall o <- options :: !Names(o, text)
  }

  /** For a text that is not plain, the two searches look for what the text says. */
  lemma LongName(option: OptionTemplate, text: string)
    requires !PlainText(text) && text[1] == '-'
    ensures Names(option, text) <==> option.longName == text[2..]
  {
    assert text == "--" + text[2..];
    if Names(option, text) { assert text[2..] == option.longName; }
  }

  lemma ShortName(option: OptionTemplate, text: string)
    requires !PlainText(text) && text[1] != '-'
    ensures Names(option, text) <==> |text| == 2 && option.shortName == text[1]
  {
    if |text| == 2 { assert text == "-" + [text[1]]; }
  }

  /** The loop takes a token for an argument, for option i of the template or for an unknown option according to its
      text alone. */
  lemma KindMeaning(options: seq<OptionTemplate>, text: string, i: nat)
    ensures KindOf(options, text) == Plain <==> PlainText(text)
    ensures KindOf(options, text) == Opt(i) <==> NamesFirst(options, text, i)
    ensures KindOf(options, text) == Unknown <==> NamesNone(options, text)
  {
    if PlainText(text) {
      forall o: OptionTemplate ensures !Names(o, text) {}
    } else {
      forall o: OptionTemplate
        ensures Names(o, text) <==>
                  if text[1] == '-' then o.longName == text[2..] else |text| == 2 && o.shortName == text[1]
      {
        if text[1] == '-' { LongName(o, text); } else { ShortName(o, text); }
      }
      var kind := KindOf(options, text);
      assert kind.Opt? ==> options[kind.index] in options;
    }
  }

  ghost predicate TakesValue(options: seq<OptionTemplate>, text: string) {
    exists i: nat :: NamesFirst(options, text, i) && options[i].optArg == ArgRequired
  }

  /** The tokens that the loop classifies; the others are values of options. */
  ghost function Heads(options: seq<OptionTemplate>, texts: seq<string>, from: nat): seq<nat>
    decreases |texts| - from
  {
    if from >= |texts| then []
    else [from] + Heads(options, texts, if TakesValue(options, texts[from]) then from + 2 else from + 1)
  }

  predicate IsPlain(texts: seq<string>, h: nat) {
    h < |texts| && PlainText(texts[h])
  }

  ghost predicate IsUnknown(options: seq<OptionTemplate>, texts: seq<string>, h: nat) {
    h < |texts| && NamesNone(options, texts[h])
  }

  /** An option that needs a value stands last. */
  ghost predicate LacksValue(options: seq<OptionTemplate>, texts: seq<string>, h: nat) {
    h + 1 == |texts| && TakesValue(options, texts[h])
  }

  ghost predicate Uses(options: seq<OptionTemplate>, texts: seq<string>, h: nat, i: nat) {
    h < |texts| && NamesFirst(options, texts[h], i)
  }

  lemma KindOfHead(options: seq<OptionTemplate>, texts: seq<string>, h: nat)
    requires h < |texts|
    ensures KindOf(options, texts[h]).Plain? <==> IsPlain(texts, h)
    ensures KindOf(options, texts[h]).Unknown? <==> IsUnknown(options, texts, h)
    ensures forall i: nat :: KindOf(options, texts[h]) == Opt(i) <==> Uses(options, texts, h, i)
    ensures TakesValue(options, texts[h]) <==>
              KindOf(options, texts[h]).Opt? && options[KindOf(options, texts[h]).index].optArg == ArgRequired
  {
    hide KindOf, NamesFirst, NamesNone, PlainText;
    var kind := KindOf(options, texts[h]);
    KindMeaning(options, texts[h], if kind.Opt? then kind.index else 0);
    forall i: nat ensures kind == Opt(i) <==> NamesFirst(options, texts[h], i) { KindMeaning(options, texts[h], i); }
  }

  /** The plain tokens among the heads, in order. */
  function Plains(texts: seq<string>, heads: seq<nat>): seq<string> {
    if heads == [] then []
    else (if IsPlain(texts, heads[0]) then [texts[heads[0]]] else []) + Plains(texts, heads[1..])
  }

  ghost predicate LastUse(options: seq<OptionTemplate>, texts: seq<string>, heads: seq<nat>, h: nat, i: nat) {
    h in heads && Uses(options, texts, h, i) && forall g <- heads :: g > h ==> !Uses(options, texts, g, i)
  }

  lemma {:induction false} HeadsAscend(options: seq<OptionTemplate>, texts: seq<string>, from: nat)
    ensures forall h <- Heads(options, texts, from) :: from <= h < |texts|
    decreases |texts| - from
  {
    if from < |texts| {
      HeadsAscend(options, texts, if TakesValue(options, texts[from]) then from + 2 else from + 1);
    }
  }

  // ----- one turn at position from

  ghost function NextHead(options: seq<OptionTemplate>, texts: seq<string>, from: nat): nat
    requires from < |texts|
  {
    if TakesValue(options, texts[from]) then from + 2 else from + 1
  }

  ghost function Turned(options: seq<OptionTemplate>, texts: seq<string>, from: nat, c: Collected): Collected
    requires from < |texts| && !IsUnknown(options, texts, from) && !LacksValue(options, texts, from)
  {
    KindOfHead(options, texts, from);
    match KindOf(options, texts[from])
    case Plain => c.(args := c.args + [texts[from]])
    case Opt(i) =>
      if options[i].optArg == NoArg then c.(seen := c.seen + {i})
      else c.(seen := c.seen + {i}, values := c.values[i := texts[from + 1]])
  }

  function ParseFrom(options: seq<OptionTemplate>, texts: seq<string>, from: nat, c: Collected): Outcome
    requires from <= |texts|
  {
    ParseTexts(options, texts[from..], c)
  }

  lemma ParseTurn(options: seq<OptionTemplate>, texts: seq<string>, from: nat, c: Collected)
    requires from <= |texts|
    ensures from == |texts| ==>
        ParseFrom(options, texts, from, c) == if c.args == [] then Failed(EmptyCommand) else Parsed(c)
    ensures from < |texts| ==>
      if IsUnknown(options, texts, from) then ParseFrom(options, texts, from, c) == Failed(UnknownOption)
      else if LacksValue(options, texts, from) then ParseFrom(options, texts, from, c) == Failed(MissingArgument)
      else ParseFrom(options, texts, from, c) ==
           ParseFrom(options, texts, NextHead(options, texts, from), Turned(options, texts, from, c))
  {
    hide KindOf, TakesValue, NamesFirst, NamesNone, PlainText;
    if from < |texts| {
      KindOfHead(options, texts, from);
      var rest := texts[from..];
      assert rest[0] == texts[from] && rest[1..] == texts[from + 1..];
      if |rest| > 1 {
        assert rest[1] == texts[from + 1] && rest[2..] == texts[from + 2..];
      }
    }
  }

  lemma HeadsTurn(options: seq<OptionTemplate>, texts: seq<string>, from: nat)
    requires from < |texts|
    ensures Heads(options, texts, from) == [from] + Heads(options, texts, NextHead(options, texts, from))
    ensures forall h <- Heads(options, texts, NextHead(options, texts, from)) :: from < h < |texts|
    ensures LacksValue(options, texts, from) ==> Heads(options, texts, NextHead(options, texts, from)) == []
  {
    HeadsAscend(options, texts, NextHead(options, texts, from));
  }

  // ----- errors

  ghost predicate NoError(options: seq<OptionTemplate>, texts: seq<string>, heads: seq<nat>) {
    forall h <- heads :: !IsUnknown(options, texts, h) && !LacksValue(options, texts, h)
  }

  /** The first error among the heads decides; an option lacks its value only at the very end, so an unknown
      option anywhere comes first. */
  lemma {:induction false} ParseErrors(options: seq<OptionTemplate>, texts: seq<string>, from: nat, c: Collected)
    requires from <= |texts|
    ensures var heads := Heads(options, texts, from);
            var out := ParseFrom(options, texts, from, c);
            && (out == Failed(UnknownOption) <==> exists h <- heads :: IsUnknown(options, texts, h))
            && (out == Failed(MissingArgument) <==>
                  (forall h <- heads :: !IsUnknown(options, texts, h)) &&
                      exists h <- heads :: LacksValue(options, texts, h))
            && (out == Failed(EmptyCommand) <==>
                  NoError(options, texts, heads) && c.args == [] && forall h <- heads :: !IsPlain(texts, h))
    decreases |texts| - from
  {
    hide KindOf, Heads, ParseFrom, TakesValue, NamesFirst, NamesNone, PlainText;
    ParseTurn(options, texts, from, c);
    if from == |texts| {
      NoHeads(options, texts);
    } else {
      HeadsTurn(options, texts, from);
      KindOfHead(options, texts, from);
      var next := NextHead(options, texts, from);
      assert from in Heads(options, texts, from);
      if !IsUnknown(options, texts, from) && !LacksValue(options, texts, from) {
        NextInRange(options, texts, from);
        ParseErrors(options, texts, next, Turned(options, texts, from, c));
      }
    }
  }

  lemma NoHeads(options: seq<OptionTemplate>, texts: seq<string>)
    ensures Heads(options, texts, |texts|) == []
  {
  }

  lemma NextInRange(options: seq<OptionTemplate>, texts: seq<string>, from: nat)
    requires from < |texts| && !LacksValue(options, texts, from)
    ensures from < NextHead(options, texts, from) <= |texts|
  {
  }

  // ----- arguments and options of a successful parse

  lemma {:induction false} ParseArguments(options: seq<OptionTemplate>, texts: seq<string>, from: nat, c: Collected)
    requires from <= |texts| && ParseFrom(options, texts, from, c).Parsed?
    ensures ParseFrom(options, texts, from, c).result.args == c.args +
        Plains(texts, Heads(options, texts, from))
    decreases |texts| - from
  {
    hide KindOf, Heads, ParseFrom, TakesValue, NamesFirst, NamesNone, PlainText;
    ParseTurn(options, texts, from, c);
    if from == |texts| {
      NoHeads(options, texts);
    } else {
      HeadsTurn(options, texts, from);
      KindOfHead(options, texts, from);
      NextInRange(options, texts, from);
      ParseArguments(options, texts, NextHead(options, texts, from), Turned(options, texts, from, c));
    }
  }

  /** Each value is the token after the last use of its option. */
  ghost predicate OptionsRead(options: seq<OptionTemplate>, texts: seq<string>, heads: seq<nat>, i: nat, c: Collected,
      d: Collected)
    requires i < |options|
  {
    && (i in d.seen <==> i in c.seen || exists h <- heads :: Uses(options, texts, h, i))
    && (options[i].optArg == NoArg ==> (i in d.values <==> i in c.values))
    && (options[i].optArg == ArgRequired ==>
          (i in d.values <==> i in c.values || exists h <- heads :: Uses(options, texts, h, i)))
    && (options[i].optArg == ArgRequired ==>
          forall h: nat :: LastUse(options, texts, heads, h, i) ==>
                             i in d.values && h + 1 < |texts| && d.values[i] == texts[h + 1])
    && ((forall h <- heads :: !Uses(options, texts, h, i)) ==>
          (i in d.values <==> i in c.values) && (i in c.values ==> d.values[i] == c.values[i]))
  }

  lemma {:induction false} ParseOptions(options: seq<OptionTemplate>, texts: seq<string>, from: nat, c: Collected,
      i: nat)
    requires from <= |texts| && i < |options| && ParseFrom(options, texts, from, c).Parsed?
    ensures OptionsRead(options, texts, Heads(options, texts, from), i, c, ParseFrom(options, texts, from, c).result)
    decreases |texts| - from
  {
    hide KindOf, Heads, ParseFrom, TakesValue, NamesFirst, NamesNone, PlainText;
    ParseTurn(options, texts, from, c);
    if from == |texts| {
      NoHeads(options, texts);
    } else {
      HeadsTurn(options, texts, from);
      KindOfHead(options, texts, from);
      NextInRange(options, texts, from);
      var next, d := NextHead(options, texts, from), Turned(options, texts, from, c);
      ParseOptions(options, texts, next, d, i);
      var heads, later := Heads(options, texts, from), Heads(options, texts, next);
      assert from in heads;
      forall h ensures LastUse(options, texts, heads, h, i) ==>
                 LastUse(options, texts, later, h, i) ||
                     (h == from && forall g <- later :: !Uses(options, texts, g, i)) {}
    }
  }

  /** cmd_parse succeeds exactly when no head is an unknown option or lacks its value and some head is plain;
      otherwise the first error decides. */
  lemma ParseSucceeds(options: seq<OptionTemplate>, texts: seq<string>)
    ensures var heads := Heads(options, texts, 0);
            var out := ParseTexts(options, texts, Collected([], {}, map[]));
            && (out.Parsed? <==> NoError(options, texts, heads) && exists h <- heads :: IsPlain(texts, h))
            && (out == Failed(UnknownOption) <==> exists h <- heads :: IsUnknown(options, texts, h))
            && (out == Failed(EmptyCommand) <==>
                  NoError(options, texts, heads) && forall h <- heads :: !IsPlain(texts, h))
  {
    hide KindOf, Heads, IsPlain, IsUnknown, LacksValue, ParseTexts;
    assert texts[0..] == texts;
    var start := Collected([], {}, map[]);
    ParseErrors(options, texts, 0, start);
    var out := ParseFrom(options, texts, 0, start);
    match out {
      case Parsed(_) =>
      case Failed(e) => assert e == UnknownOption || e == MissingArgument || e == EmptyCommand;
    }
  }

  /** After a success argv is the plain heads in order, the options present are those used, and each value is the
      token after the last use of its option. */
  lemma ParseDelivers(options: seq<OptionTemplate>, texts: seq<string>, i: nat)
    requires i < |options| && ParseTexts(options, texts, Collected([], {}, map[])).Parsed?
    ensures var heads := Heads(options, texts, 0);
            var c := ParseTexts(options, texts, Collected([], {}, map[])).result;
            && c.args == Plains(texts, heads)
            && (i in c.seen <==> exists h <- heads :: Uses(options, texts, h, i))
            && (i in c.values <==> i in c.seen && options[i].optArg == ArgRequired)
            && forall h: nat :: options[i].optArg == ArgRequired && LastUse(options, texts, heads, h, i) ==>
                 h + 1 < |texts| && c.values[i] == texts[h + 1]
  {
    hide KindOf, Heads, Uses, LastUse, ParseTexts, Plains;
    var start := Collected([], {}, map[]);
    assert texts[0..] == texts;
    ParseArguments(options, texts, 0, start);
    ParseOptions(options, texts, 0, start, i);
  }

  /** What cmd_parse returned may be given to cmd_parse_free. */
  predicate Freeable(outcome: Outcome) {
    outcome.Parsed? || ReturnsEarly(Marker(outcome.error))
  }

  /** That is so if and only if some token in option position is plain, unknown or lacks its value. */
  lemma FreeableExactly(options: seq<OptionTemplate>, texts: seq<string>)
    ensures Freeable(ParseTexts(options, texts, Collected([], {}, map[]))) <==>
            exists h <- Heads(options, texts, 0) ::
              IsPlain(texts, h) || IsUnknown(options, texts, h) || LacksValue(options, texts, h)
  {
    ParseSucceeds(options, texts);
    var out := ParseTexts(options, texts, Collected([], {}, map[]));
    assert out.Failed? ==> out.error.MissingArgument? || out.error.UnknownOption? || out.error.EmptyCommand?;
  }

  /** The result for a blank line must not be freed. */
  lemma BlankLineNotFreeable(options: seq<OptionTemplate>)
    ensures !Freeable(ParseTexts(options, [], Collected([], {}, map[])))
  {
    var none: seq<string> := [];
    NoHeads(options, none);
    assert Heads(options, none, 0) == [];
    FreeableExactly(options, none);
  }
}
