/** cmd_parse: options and arguments of a command line, and who owns each token it allocates. */
module CmdParser {
  import opened Tokens
  import opened Wrappers

  datatype OptArg = ArgRequired | NoArg

  datatype OptionTemplate = OptionTemplate(shortName: char, longName: string, optArg: OptArg)

  /** A template is NULL or an array closed by an entry whose short name is 0. */
  type Template = Option<seq<OptionTemplate>>

  datatype ParseError = MissingArgument | UnknownOption | EmptyCommand

  // ----- the specification over token texts

  datatype Kind = Plain | Opt(index: nat) | Unknown

  function FindLong(options: seq<OptionTemplate>, name: string, i: nat): (k: nat)
    requires i <= |options|
    ensures i <= k <= |options|
    ensures forall j :: i <= j < k ==> options[j].longName != name
    ensures k < |options| ==> options[k].longName == name
    decreases |options| - i
  {
    if i < |options| && options[i].longName != name then FindLong(options, name, i + 1) else i
  }

  function FindShort(options: seq<OptionTemplate>, name: char, i: nat): (k: nat)
    requires i <= |options|
    ensures i <= k <= |options|
    ensures forall j :: i <= j < k ==> options[j].shortName != name
    ensures k < |options| ==> options[k].shortName == name
    decreases |options| - i
  {
    if i < |options| && options[i].shortName != name then FindShort(options, name, i + 1) else i
  }

  function KindOf(options: seq<OptionTemplate>, text: string): (kind: Kind)
    ensures kind.Opt? ==> kind.index < |options|
  {
    if text == "" || text[0] != '-' || text == "-" || text == "--" then Plain
    else if text[1] == '-' then
      var i := FindLong(options, text[2..], 0);
      if i < |options| then Opt(i) else Unknown
    else if |text| > 2 then Unknown
    else
      var i := FindShort(options, text[1], 0);
      if i < |options| then Opt(i) else Unknown
  }

  /** A NULL template offers no option. */
  function Offered(template: Template): seq<OptionTemplate> {
    if template.Some? then template.value else []
  }

  /** What the parse has collected so far: plain tokens, options seen, and their values. */
  datatype Collected = Collected(args: seq<string>, seen: set<nat>, values: map<nat, string>)

  datatype Outcome = Failed(error: ParseError) | Parsed(result: Collected)

  /** The left-to-right specification. */
  function ParseTexts(options: seq<OptionTemplate>, texts: seq<string>, c: Collected): Outcome
    decreases |texts|
  {
    if texts == [] then
      if c.args == [] then Failed(EmptyCommand) else Parsed(c)
    else
      match KindOf(options, texts[0])
      case Plain => ParseTexts(options, texts[1..], c.(args := c.args + [texts[0]]))
      case Unknown => Failed(UnknownOption)
      case Opt(i) =>
        var seen := c.(seen := c.seen + {i});
        if options[i].optArg == NoArg then ParseTexts(options, texts[1..], seen)
        else if |texts| == 1 then Failed(MissingArgument)
        else ParseTexts(options, texts[2..], seen.(values := c.values[i := texts[1]]))
  }

  // ----- tokens in memory

  /** An allocated token; addr tells allocations apart. */
  datatype Token = Token(addr: nat, text: string)

  datatype ArgList = Nil | Cons(text: Token, next: ArgList)

  datatype ParsedOption = ParsedOption(isInCmd: bool, value: Option<Token>)

  function Owned(o: ParsedOption): multiset<Token> {
    if o.value.Some? then multiset{o.value.value} else multiset{}
  }

  function OwnedByOptions(options: seq<ParsedOption>): multiset<Token> {
    if options == [] then multiset{}
    else OwnedByOptions(options[..|options| - 1]) + Owned(options[|options| - 1])
  }

  function OwnedByList(l: ArgList): multiset<Token> {
    match l
    case Nil => multiset{}
    case Cons(t, next) => multiset{t} + OwnedByList(next)
  }

  /** The list is built by prepending, so the texts come out reversed. */
  function InOrder(l: ArgList): seq<Token> {
    match l
    case Nil => []
    case Cons(t, next) => InOrder(next) + [t]
  }

  function TextsOf(ts: seq<Token>): (r: seq<string>)
    ensures |r| == |ts|
  {
    seq(|ts|, k requires 0 <= k < |ts| => ts[k].text)
  }

  lemma {:induction false} ReplaceOption(options: seq<ParsedOption>, i: nat, o: ParsedOption)
    requires i < |options|
    ensures OwnedByOptions(options[i := o]) + Owned(options[i]) == OwnedByOptions(options) + Owned(o)
  {
    hide Owned;
    var n := |options| - 1;
    var changed := options[i := o];
    var front := OwnedByOptions(options[..n]);
    assert OwnedByOptions(options) == front + Owned(options[n]);
    assert OwnedByOptions(changed) == OwnedByOptions(changed[..n]) + Owned(changed[n]);
    if i == n {
      assert changed[..n] == options[..n];
    } else {
      assert changed[..n] == options[..n][i := o];
      ReplaceOption(options[..n], i, o);
      var last := Owned(options[n]);
      assert OwnedByOptions(changed) + Owned(options[i]) == (OwnedByOptions(changed[..n]) + Owned(options[i])) + last;
      assert (front + Owned(o)) + last == OwnedByOptions(options) + Owned(o);
    }
  }

  datatype ParseResult =
    | Failure(error: ParseError)
    | Success(options: seq<ParsedOption>, argc: nat, argv: seq<Token>)

  function OwnedByResult(r: ParseResult): multiset<Token> {
    match r
    case Failure(_) => multiset{}
    case Success(options, _, argv) => OwnedByOptions(options) + multiset(argv)
  }

  /** The options array agrees with what has been collected. */
  ghost predicate Agrees(options: seq<ParsedOption>, c: Collected) {
    && (forall i <- c.seen :: i < |options|)
    && (forall i <- c.values :: i < |options|)
    && forall i :: 0 <= i < |options| ==>
         && (options[i].isInCmd <==> i in c.seen)
         && (options[i].value.Some? <==> i in c.values)
         && (options[i].value.Some? ==> options[i].isInCmd && options[i].value.value.text == c.values[i])
  }

  /** Every allocation has its own address. */
  ghost predicate Numbered(made: seq<Token>) {
    forall k :: 0 <= k < |made| ==> made[k].addr == k
  }

  ghost predicate Delivers(r: ParseResult, outcome: Outcome, n: nat) {
    match outcome
    case Failed(e) => r == Failure(e)
    case Parsed(c) =>
      && r.Success? && r.argc == |r.argv| && TextsOf(r.argv) == c.args
      && |r.options| == n && Agrees(r.options, c)
  }

  // ----- the clean-up loops

  /** The option values freed by cmd_parse_free. */
  method FreeOptions(options: array<ParsedOption>) returns (ghost freed: multiset<Token>)
    ensures freed == OwnedByOptions(options[..])
  {
    freed := multiset{};
    for i := 0 to options.Length
      invariant freed == OwnedByOptions(options[..i])
    {
      assert options[..i + 1][..i] == options[..i];
      if options[i].value.Some? {
        freed := freed + multiset{options[i].value.value};
      }
    }
    assert options[..options.Length] == options[..];
  }

  /** free_arg_list */
  method FreeArgList(l: ArgList) returns (ghost freed: multiset<Token>)
    ensures freed == OwnedByList(l)
  {
    freed := multiset{};
    if l.Cons? {
      freed := FreeArgList(l.next);
      freed := freed + multiset{l.text};
    }
  }

  /** What cmd_parse_free can be given: NULL, one of the markers of a failed parse, or a parse, whose argv is NULL while
      it is in progress. */
  datatype Pointer = Null | Marker(error: ParseError) | Parse(options: array<ParsedOption>, argv: array?<Token>)

  /** The test at the top of cmd_parse_free. */
  predicate ReturnsEarly(p: Pointer) {
    p.Null? || p == Marker(MissingArgument) || p == Marker(UnknownOption)
  }

  /** It covers every failed result but that of an empty command, which the code goes on to dereference. */
  lemma EarlyReturnMissesEmpty(p: Pointer)
    ensures !ReturnsEarly(p) && !p.Parse? <==> p == Marker(EmptyCommand)
  {
    if p.Marker? {
      assert p.error.MissingArgument? || p.error.UnknownOption? || p.error.EmptyCommand?;
    }
  }

  /** cmd_parse_free: every token that the parse owns is freed. */
  method CmdParseFree(p: Pointer) returns (ghost freed: multiset<Token>)
    requires p != Marker(EmptyCommand)
    ensures p.Parse? ==>
        freed == OwnedByOptions(p.options[..]) + if p.argv == null then multiset{} else multiset(p.argv[..])
    ensures !p.Parse? ==> freed == multiset{}
  {
    freed := multiset{};
    EarlyReturnMissesEmpty(p);
    if ReturnsEarly(p) {
      return;
    }
    freed := FreeOptions(p.options);
    if p.argv != null {
      ghost var args := multiset{};
      for i := 0 to p.argv.Length
        invariant args == multiset(p.argv[..i])
      {
        assert p.argv[..i + 1] == p.argv[..i] + [p.argv[i]];
        args := args + multiset{p.argv[i]};
      }
      assert p.argv[..p.argv.Length] == p.argv[..];
      freed := freed + args;
    }
  }

  /** The parse_error exit. */
  method CleanUp(options: array<ParsedOption>, arguments: ArgList, token: Option<Token>)
    returns (ghost freed: multiset<Token>)
    ensures freed == OwnedByOptions(options[..]) + OwnedByList(arguments) +
                     (if token.Some? then multiset{token.value} else multiset{})
  {
    freed := CmdParseFree(Parse(options, null));
    ghost var listed := FreeArgList(arguments);
    freed := freed + listed;
    if token.Some? {
      freed := freed + multiset{token.value};
    }
  }

  // ----- building argv

  lemma {:induction false} ListOwnsItsOrder(l: ArgList)
    ensures OwnedByList(l) == multiset(InOrder(l))
  {
    if l.Cons? {
      ListOwnsItsOrder(l.next);
    }
  }

  lemma LastInOrder(l: ArgList)
    requires l.Cons?
    ensures InOrder(l) == InOrder(l.next) + [l.text]
  {
  }

  lemma NilInOrder()
    ensures InOrder(Nil) == []
  {
  }

  /** argv is filled from the back, since the list is in reverse. */
  method BuildArgv(arguments: ArgList, argc: nat) returns (argv: array<Token>)
    requires argc == |InOrder(arguments)|
    ensures fresh(argv) && argv[..] == InOrder(arguments)
  {
    hide InOrder;
    argv := new Token[argc](_ => Token(0, ""));
    ghost var order := InOrder(arguments);
    var argn, tmp := 1, arguments;
    while tmp.Cons?
      invariant 1 <= argn <= argc + 1 && InOrder(tmp) == order[..argc - argn + 1]
      invariant forall k :: argc - argn < k < argc ==> argv[k] == order[k]
      decreases tmp
    {
      LastInOrder(tmp);
      argv[argc - argn] := tmp.text;
      assert InOrder(tmp.next) == order[..argc - argn];
      argn, tmp := argn + 1, tmp.next;
    }
    NilInOrder();
  }

  // ----- cmd_parse

  /** A recognized option: its token is freed, and so is the value of an earlier occurrence. */
  method MarkOption(options: array<ParsedOption>, i: nat, token: Token) returns (ghost freed: multiset<Token>)
    requires i < options.Length && (options[i].value.Some? ==> options[i].isInCmd)
    modifies options
    ensures options[..] == old(options[..])[i := ParsedOption(true, None)]
    ensures OwnedByOptions(old(options[..])) + multiset{token} == freed + OwnedByOptions(options[..])
  {
    hide OwnedByOptions;
    freed := multiset{token};
    ghost var before := options[..];
    if options[i].isInCmd && options[i].value.Some? {
      freed := freed + multiset{options[i].value.value};
      options[i] := options[i].(value := None);
    } else {
      options[i] := options[i].(isInCmd := true);
    }
    ReplaceOption(before, i, options[i]);
    assert options[..] == before[i := options[i]];
    assert freed == multiset{token} + Owned(before[i]);
    assert OwnedByOptions(before) == OwnedByOptions(before) + Owned(options[i]);
  }

  /** The argument that the option requires, if there is one left. */
  method ReadArgument(options: array<ParsedOption>, i: nat, cmd: string, cursor: nat, mallocs: nat,
      ghost made: seq<Token>)
    returns (ok: bool, next: nat, ghost value: Token)
    requires i < options.Length && options[i].value == None && cursor <= |cmd| && '\0' !in cmd
    modifies options
    ensures cursor <= next <= |cmd|
    ensures ok <==> Tokenize(cmd, cursor) != []
    ensures !ok ==> options[..] == old(options[..])
    ensures ok ==>
      && value.addr == mallocs && Tokenize(cmd, cursor) == [value.text] + Tokenize(cmd, next)
      && options[..] == old(options[..])[i := old(options[i]).(value := Some(value))]
      && OwnedByOptions(options[..]) == OwnedByOptions(old(options[..])) + multiset{value}
  {
    hide OwnedByOptions, Tokenize;
    var text;
    text, next := GetToken(cmd, cursor);
    ok, value := false, Token(mallocs, "");
    if text.Some? {
      ghost var before := options[..];
      var token := Token(mallocs, text.value);
      options[i] := options[i].(value := Some(token));
      ok, value := true, token;
      ReplaceOption(before, i, options[i]);
      assert options[..] == before[i := options[i]];
      assert OwnedByOptions(options[..]) == OwnedByOptions(options[..]) + Owned(before[i]);
    }
  }

  /** The loop has turned part of the line into c, and the rest decides the outcome. */
  ghost predicate Progress(offered: seq<OptionTemplate>, cmd: string, cursor: nat, c: Collected)
    requires cursor <= |cmd|
  {
    && Final(offered, cmd) == ParseTexts(offered, Tokenize(cmd, cursor), c)
    && (forall i <- c.values :: i < |offered| && offered[i].optArg == ArgRequired)
  }

  /** The search loops over the template. */
  method Search(options: seq<OptionTemplate>, text: string) returns (i: nat)
    requires |text| >= 2 && text != "--" && text[0] == '-' && (text[1] == '-' || |text| == 2)
    ensures i <= |options|
    ensures KindOf(options, text) == if i < |options| then Opt(i) else Unknown
  {
    i := 0;
    if text[1] == '-' {
      while i < |options| && text[2..] != options[i].longName
        invariant i <= |options| && FindLong(options, text[2..], i) == FindLong(options, text[2..], 0)
      {
        i := i + 1;
      }
    } else {
      while i < |options| && text[1] != options[i].shortName
        invariant i <= |options| && FindShort(options, text[1], i) == FindShort(options, text[1], 0)
      {
        i := i + 1;
      }
    }
  }

  /** One turn of the loop: the outcome of the whole parse does not change. */
  lemma ParseOne(offered: seq<OptionTemplate>, cmd: string, from: nat, cursor: nat, text: string, c: Collected)
    requires from <= |cmd| && cursor <= |cmd|
    requires Progress(offered, cmd, from, c) && Tokenize(cmd, from) == [text] + Tokenize(cmd, cursor)
    ensures KindOf(offered, text).Plain? ==> Progress(offered, cmd, cursor, c.(args := c.args + [text]))
    ensures KindOf(offered, text).Unknown? ==> Final(offered, cmd) == Failed(UnknownOption)
    ensures KindOf(offered, text).Opt? ==>
      var i := KindOf(offered, text).index;
      var rest := Tokenize(cmd, cursor);
      var seen := c.(seen := c.seen + {i});
      if offered[i].optArg == NoArg then Progress(offered, cmd, cursor, seen)
      else if rest == [] then Final(offered, cmd) == Failed(MissingArgument)
      else forall next: nat :: next <= |cmd| && Tokenize(cmd, next) == rest[1..] ==>
             Progress(offered, cmd, next, seen.(values := c.values[i := rest[0]]))
  {
    hide Tokenize, KindOf;
    var texts, rest := Tokenize(cmd, from), Tokenize(cmd, cursor);
    assert texts[0] == text && texts[1..] == rest;
    if rest != [] {
      assert texts[2..] == rest[1..];
    }
  }

  ghost function Final(offered: seq<OptionTemplate>, cmd: string): Outcome {
    ParseTexts(offered, Tokenize(cmd, 0), Collected([], {}, map[]))
  }

  lemma ParseEnd(offered: seq<OptionTemplate>, cmd: string, cursor: nat, c: Collected)
    requires cursor <= |cmd| && Progress(offered, cmd, cursor, c) && Tokenize(cmd, cursor) == []
    ensures Final(offered, cmd) == if c.args == [] then Failed(EmptyCommand) else Parsed(c)
  {
    hide Tokenize;
  }

  lemma {:induction false} NothingOwned(options: seq<ParsedOption>)
    requires forall o <- options :: o.value == None
    ensures OwnedByOptions(options) == multiset{}
  {
    if options != [] {
      NothingOwned(options[..|options| - 1]);
    }
  }
  // ----- the ledger of tokens

  /** The tokens owned by the parse in progress. */
  ghost function InHand(options: seq<ParsedOption>, arguments: ArgList): multiset<Token> {
    OwnedByOptions(options) + OwnedByList(arguments)
  }

  ghost function Held(options: seq<ParsedOption>, arguments: ArgList, token: Option<Token>): multiset<Token> {
    if token.Some? then InHand(options, arguments) + multiset{token.value} else InHand(options, arguments)
  }

  /** Every token allocated is freed or owned, exactly once. */
  ghost predicate Accounts(made: seq<Token>, freed: multiset<Token>, owned: multiset<Token>) {
    Numbered(made) && multiset(made) == freed + owned
  }

  /** A new token is in hand. */
  lemma AccountsNew(made: seq<Token>, freed: multiset<Token>, owned: multiset<Token>, token: Token)
    requires Accounts(made, freed, owned) && token.addr == |made|
    ensures Accounts(made + [token], freed, owned + multiset{token})
  {
    assert freed + (owned + multiset{token}) == (freed + owned) + multiset{token};
  }

  /** The token in hand becomes an argument. */
  lemma AccountsArgument(made: seq<Token>, freed: multiset<Token>, options: seq<ParsedOption>, l: ArgList, token: Token)
    requires Accounts(made, freed, InHand(options, l) + multiset{token})
    ensures Accounts(made, freed, InHand(options, Cons(token, l)))
  {
    assert InHand(options, Cons(token, l)) == InHand(options, l) + multiset{token};
  }

  /** The token in hand and an old value are freed. */
  lemma AccountsMark(made: seq<Token>, freed: multiset<Token>, before: seq<ParsedOption>, after: seq<ParsedOption>,
      l: ArgList, token: Token, taken: multiset<Token>)
    requires Accounts(made, freed, InHand(before, l) + multiset{token})
    requires OwnedByOptions(before) + multiset{token} == taken + OwnedByOptions(after)
    ensures Accounts(made, freed + taken, InHand(after, l))
  {
    assert freed + (InHand(before, l) + multiset{token}) == freed + OwnedByList(l) +
        (OwnedByOptions(before) + multiset{token});
  }

  /** A new token becomes the value of an option. */
  lemma AccountsValue(made: seq<Token>, freed: multiset<Token>, before: seq<ParsedOption>, after: seq<ParsedOption>,
      l: ArgList, value: Token)
    requires Accounts(made, freed, InHand(before, l)) && value.addr == |made|
    requires OwnedByOptions(after) == OwnedByOptions(before) + multiset{value}
    ensures Accounts(made + [value], freed, InHand(after, l))
  {
    assert InHand(after, l) == InHand(before, l) + multiset{value};
    AccountsNew(made, freed, InHand(before, l), value);
  }

  /** The state of one cmd_parse: the struct being filled and the local variables. */
  class Parser {
    const cmd: string
    const template: Template
    const options: array<ParsedOption>
    var arguments: ArgList
    var argc: nat
    var cursor: nat
    var mallocs: nat
    /** What has been read, up to position from of the line. */
    ghost var c: Collected
    ghost var from: nat
    /** Every token allocated, and those freed. */
    ghost var made: seq<Token>
    ghost var freed: multiset<Token>

    ghost predicate Collects()
      reads this, options
    {
      && '\0' !in cmd && options.Length == |Offered(template)| && Agrees(options[..], c)
      && from <= |cmd| && cursor <= |cmd| && Progress(Offered(template), cmd, from, c)
      && c.args == TextsOf(InOrder(arguments)) && argc == |c.args|
      && mallocs == |made|
    }

    /** Between two turns of the loop. */
    ghost predicate Valid()
      reads this, options
    {
      Collects() && from == cursor && Accounts(made, freed, InHand(options[..], arguments))
    }

    /** The token just read is in hand. */
    ghost predicate Pending(token: Token)
      reads this, options
    {
      && Collects() && from <= cursor && token.text != ""
      && Tokenize(cmd, from) == [token.text] + Tokenize(cmd, cursor)
      && Accounts(made, freed, InHand(options[..], arguments) + multiset{token})
    }

    /** An error was found; the token read last may still have to be freed. */
    ghost predicate Failing(error: ParseError, leftOver: Option<Token>)
      reads this, options
    {
      && Final(Offered(template), cmd) == Failed(error)
      && Accounts(made, freed, Held(options[..], arguments, leftOver))
    }

    constructor (cmd: string, template: Template)
      requires '\0' !in cmd
      ensures Valid() && fresh(options) && this.cmd == cmd && this.template == template
    {
      this.cmd, this.template := cmd, template;
      options := new ParsedOption[|Offered(template)|](_ => ParsedOption(false, None));
      arguments, argc, cursor, mallocs := Nil, 0, 0, 0;
      c, from, made, freed := Collected([], {}, map[]), 0, [], multiset{};
      new;
      NothingOwned(options[..]);
    }

    /** The loop's call of get_token. */
    method NextToken() returns (t: Option<Token>)
      requires Valid()
      modifies this
      ensures t.Some? ==> Pending(t.value) && old(cursor) < cursor
      ensures t == None ==>
                Collects() && Accounts(made, freed, InHand(options[..], arguments)) && Tokenize(cmd, from) == []
    {
      hide Tokenize, Agrees, Progress, TextsOf, InOrder, Final, ParseTexts, Accounts, InHand;
      var text;
      text, cursor := GetToken(cmd, cursor);
      if text == None {
        return None;
      }
      var token := Token(mallocs, text.value);
      AccountsNew(made, freed, InHand(options[..], arguments), token);
      made, mallocs := made + [token], mallocs + 1;
      t := Some(token);
    }

    method AddArgument(token: Token)
      requires Pending(token) && KindOf(Offered(template), token.text).Plain?
      modifies this
      ensures Valid() && cursor == old(cursor)
    {
      hide Tokenize, KindOf, Progress, Final, ParseTexts, Accounts, InHand;
      ParseOne(Offered(template), cmd, from, cursor, token.text, c);
      AccountsArgument(made, freed, options[..], arguments, token);
      arguments, argc := Cons(token, arguments), argc + 1;
      c, from := c.(args := c.args + [token.text]), cursor;
    }

    /** The block that both kinds of option share. */
    method TakeOption(i: nat, token: Token) returns (ok: bool)
      requires Pending(token) && KindOf(Offered(template), token.text) == Opt(i)
      modifies this, options
      ensures ok ==> Valid() && old(cursor) <= cursor
      ensures !ok ==> Failing(MissingArgument, None)
    {
      hide Tokenize, OwnedByOptions, KindOf, TextsOf, InOrder, Final, ParseTexts, Progress, Agrees, Accounts, InHand;
      ghost var before := options[..];
      OptionAgrees(before, Offered(template), cmd, from, c, i);
      ghost var taken := MarkOption(options, i, token);
      AccountsMark(made, freed, before, options[..], arguments, token, taken);
      freed := freed + taken;
      if template.value[i].optArg == ArgRequired {
        ok := TakeValue(i, before, token.text);
      } else {
        ParseOne(Offered(template), cmd, from, cursor, token.text, c);
        c, from, ok := c.(seen := c.seen + {i}), cursor, true;
      }
    }

    /** The argument of the option that was just marked. */
    method TakeValue(i: nat, ghost before: seq<ParsedOption>, ghost text: string) returns (ok: bool)
      requires '\0' !in cmd && i < options.Length == |before| == |Offered(template)|
      requires Agrees(before, c) && options[..] == before[i := ParsedOption(true, None)]
      requires from <= |cmd| && cursor <= |cmd| && Progress(Offered(template), cmd, from, c)
      requires c.args == TextsOf(InOrder(arguments)) && argc == |c.args| && mallocs == |made|
      requires Tokenize(cmd, from) == [text] + Tokenize(cmd, cursor)
      requires KindOf(Offered(template), text) == Opt(i) && Offered(template)[i].optArg == ArgRequired
      requires Accounts(made, freed, InHand(options[..], arguments))
      modifies this, options
      ensures ok ==> Valid() && old(cursor) <= cursor
      ensures !ok ==> Failing(MissingArgument, None)
    {
      hide Tokenize, OwnedByOptions, KindOf, TextsOf, InOrder, Final, ParseTexts, Progress, Agrees, Accounts, InHand;
      ParseOne(Offered(template), cmd, from, cursor, text, c);
      ghost var middle, rest := options[..], Tokenize(cmd, cursor);
      ghost var value;
      ok, cursor, value := ReadArgument(options, i, cmd, cursor, mallocs, made);
      if ok {
        assert rest[0] == value.text && rest[1..] == Tokenize(cmd, cursor);
        AccountsValue(made, freed, middle, options[..], arguments, value);
        made, mallocs := made + [value], mallocs + 1;
        ValueAgrees(before, options[..], c, i, value);
        c, from := c.(seen := c.seen + {i}, values := c.values[i := value.text]), cursor;
      }
    }

    /** The body of the loop.  On an error the token is left over for the clean-up, unless it was freed. */
    method Turn(token: Token) returns (error: Option<ParseError>, leftOver: Option<Token>)
      requires Pending(token)
      modifies this, options
      ensures error == None ==> Valid() && old(cursor) <= cursor
      ensures error.Some? ==> Failing(error.value, leftOver)
    {
      hide Tokenize, OwnedByOptions, TextsOf, InOrder, Final, ParseTexts, Progress, Agrees, Accounts, InHand;
      var text := token.text;
      if text[0] != '-' || |text| == 1 || (text[1] == '-' && |text| == 2) {
        AddArgument(token);
        return None, None;
      }
      ParseOne(Offered(template), cmd, from, cursor, text, c);
      if (text[1] != '-' && |text| > 2) || template == None {
        return Some(UnknownOption), Some(token);
      }
      var i := Search(template.value, text);
      if i == |template.value| {
        return Some(UnknownOption), Some(token);
      }
      var ok := TakeOption(i, token);
      error, leftOver := if ok then None else Some(MissingArgument), None;
    }
  }

  lemma AccountsFailure(made: seq<Token>, freed: multiset<Token>, options: seq<ParsedOption>, l: ArgList,
      token: Option<Token>, cleaned: multiset<Token>, e: ParseError)
    requires Accounts(made, freed, Held(options, l, token))
    requires cleaned == OwnedByOptions(options) + OwnedByList(l) +
        (if token.Some? then multiset{token.value} else multiset{})
    ensures Accounts(made, freed + cleaned, OwnedByResult(Failure(e)))
  {
    assert cleaned == Held(options, l, token);
  }

  lemma AccountsSuccess(made: seq<Token>, freed: multiset<Token>, options: seq<ParsedOption>, l: ArgList, argc: nat)
    requires Accounts(made, freed, InHand(options, l))
    ensures Accounts(made, freed, OwnedByResult(Success(options, argc, InOrder(l))))
  {
    ListOwnsItsOrder(l);
  }

  /** cmd_parse */
  method CmdParse(cmd: string, template: Template)
    returns (r: ParseResult, ghost made: seq<Token>, ghost freed: multiset<Token>)
    requires '\0' !in cmd
    ensures Delivers(r, Final(Offered(template), cmd), |Offered(template)|)
    ensures Accounts(made, freed, OwnedByResult(r))
  {
    hide Tokenize, OwnedByOptions, OwnedByList, TextsOf, ParseTexts, Progress, Agrees, Accounts, InHand, OwnedByResult;
    var p := new Parser(cmd, template);
    while true
      invariant p.Valid() && p.cmd == cmd && p.template == template && fresh(p) && fresh(p.options)
      decreases |cmd| - p.cursor
    {
      var token := p.NextToken();
      if token == None {
        break;
      }
      var error, leftOver := p.Turn(token.value);
      if error.Some? {
        r := Failure(error.value);
        ghost var cleaned := CleanUp(p.options, p.arguments, leftOver);
        AccountsFailure(p.made, p.freed, p.options[..], p.arguments, leftOver, cleaned, r.error);
        return r, p.made, p.freed + cleaned;
      }
    }
    ParseEnd(Offered(template), cmd, p.from, p.c);
    if p.arguments.Nil? {
      r := Failure(EmptyCommand);
      ghost var cleaned := CleanUp(p.options, p.arguments, None);
      AccountsFailure(p.made, p.freed, p.options[..], p.arguments, None, cleaned, r.error);
      return r, p.made, p.freed + cleaned;
    }
    var argv := BuildArgv(p.arguments, p.argc);
    AccountsSuccess(p.made, p.freed, p.options[..], p.arguments, p.argc);
    return Success(p.options[..], p.argc, argv[..]), p.made, p.freed;
  }

  /** Marking an option that takes no argument keeps the array in step. */
  lemma OptionAgrees(options: seq<ParsedOption>, offered: seq<OptionTemplate>, cmd: string, from: nat, c: Collected,
      i: nat)
    requires Agrees(options, c) && i < |options| == |offered| && from <= |cmd| && Progress(offered, cmd, from, c)
    ensures options[i].value.Some? ==> options[i].isInCmd
    ensures offered[i].optArg == NoArg ==> Agrees(options[i := ParsedOption(true, None)], c.(seen := c.seen + {i}))
  {
  }

  lemma ValueAgrees(before: seq<ParsedOption>, after: seq<ParsedOption>, c: Collected, i: nat, value: Token)
    requires Agrees(before, c) && i < |before|
    requires after == before[i := ParsedOption(true, Some(value))]
    ensures Agrees(after, c.(seen := c.seen + {i}, values := c.values[i := value.text]))
  {
  }
}
