/** The text-command surface of the bot: the configured prefix and the tokenising and
    dispatch of a prefixed message (index.js:9, 69-73, 75, 77-78, 104). */
module Commands {
  import opened Wrappers
  import opened Text

  /** The prefix used when the environment sets none (or sets it to the empty string). */
  const DefaultPrefix: string := "!"

  /** `process.env.COMMAND_PREFIX || '!'`: an unset or empty variable falls back to "!", so the
      prefix in effect is never empty. */
  function EffectivePrefix(env: Option<string>): (p: string)
    ensures p != []
    ensures env.Some? && env.value != [] ==> p == env.value
    ensures env.None? || env.value == [] ==> p == DefaultPrefix
  {
    match env
    case Some(v) => if v != [] then v else DefaultPrefix
    case None => DefaultPrefix
  }

  /** A parsed command. `SetChannel` keeps every argument after the command word; its arity is
      checked by the handler, as in the source. */
  datatype Command = Help | Ping | SetChannel(args: seq<string>) | Unknown(name: string)

  /** `body.trim().split(/ +/)`: the command word followed by its arguments. */
  function Tokens(body: string): (ts: seq<string>)
    ensures |ts| >= 1
    ensures forall t :: t in ts ==> ' ' !in t
  {
    SplitSpaces(Trim(body))
  }

  /** The tokens are the words of the body: whatever whitespace surrounds the body and however
      many spaces separate its words, tokenising gives back exactly those words. */
  lemma TokensOfWords(pre: string, ws: seq<string>, ns: seq<nat>, post: string)
    requires forall i :: 0 <= i < |pre| ==> IsWhitespace(pre[i])
    requires forall i :: 0 <= i < |post| ==> IsWhitespace(post[i])
    requires |ws| >= 1 && |ns| == |ws| - 1 && Runs(ns)
    requires forall k :: 0 <= k < |ws| ==> ws[k] != [] && NoWhitespace(ws[k])
    ensures Tokens(pre + JoinRuns(ws, ns) + post) == ws
  {
    var x := JoinRuns(ws, ns);
    JoinRunsEnds(ws, ns);
    var last := ws[|ws| - 1];
    assert !IsWhitespace(ws[0][0]) && !IsWhitespace(last[|last| - 1]);
    TrimPadded(pre, x, post);
    forall k | 0 <= k < |ws| ensures ' ' !in ws[k] {
      assert forall i :: 0 <= i < |ws[k]| ==> ws[k][i] != ' ';
    }
    SplitJoinRuns(ws, ns);
  }

  /** The command word, lowercased (`args.shift().toLowerCase()`). */
  function CommandWord(body: string): string
  {
    Lower(Tokens(body)[0])
  }

  /** Parses the text that follows the prefix. The command word is matched case-insensitively;
      every other word is unknown. The arguments of `setchannel` are the remaining tokens, each
      non-empty and free of spaces. */
  function ParseCommand(body: string): (c: Command)
    ensures c == Help <==> CommandWord(body) == "help"
    ensures c == Ping <==> CommandWord(body) == "ping"
    ensures c.SetChannel? <==> CommandWord(body) == "setchannel"
    ensures c.Unknown? <==> CommandWord(body) !in {"help", "ping", "setchannel"}
    ensures c.Unknown? ==> c.name == CommandWord(body)
    ensures c.SetChannel? ==> c.args == Tokens(body)[1..]
    ensures c.SetChannel? ==> forall a :: a in c.args ==> a != [] && ' ' !in a
  {
    var ts := Tokens(body);
    var word := Lower(ts[0]);
    if word == "help" then Help
    else if word == "ping" then Ping
    else if word == "setchannel" then
      assert SplitSpaces([]) == [[]];
      assert Trim(body) != [];
      SplitNonEmptyPieces(Trim(body));
      assert forall a :: a in ts[1..] ==> a in ts;
      SetChannel(ts[1..])
    else Unknown(word)
  }

  /** A message is a command exactly when it starts with the prefix; the command is parsed from
      what follows the prefix. */
  predicate IsCommand(content: string, prefix: string)
  {
    prefix <= content
  }

  function CommandOf(content: string, prefix: string): Command
    requires IsCommand(content, prefix)
  {
    ParseCommand(content[|prefix|..])
  }

  /** `setchannel` followed by a run of any number of spaces and one word takes that word as its
      only argument, whatever the case of the command word and the whitespace around the body. */
  lemma SetChannelOneArgument(pre: string, word: string, n: nat, arg: string, post: string)
    requires forall i :: 0 <= i < |pre| ==> IsWhitespace(pre[i])
    requires forall i :: 0 <= i < |post| ==> IsWhitespace(post[i])
    requires Lower(word) == "setchannel" && NoWhitespace(word)
    requires n >= 1 && arg != [] && NoWhitespace(arg)
    ensures ParseCommand(pre + word + Spaces(n) + arg + post) == SetChannel([arg])
  {
    assert |word| == |Lower(word)|;
    TwoWordTokens(pre, word, n, arg, post);
    assert [word, arg][1..] == [arg];
  }

  /** Two words with a run of spaces between them, padded with whitespace, tokenise to those two words. */
  lemma TwoWordTokens(pre: string, word: string, n: nat, arg: string, post: string)
    requires forall i :: 0 <= i < |pre| ==> IsWhitespace(pre[i])
    requires forall i :: 0 <= i < |post| ==> IsWhitespace(post[i])
    requires word != [] && NoWhitespace(word)
    requires n >= 1 && arg != [] && NoWhitespace(arg)
    ensures Tokens(pre + word + Spaces(n) + arg + post) == [word, arg]
  {
    var ws, ns := [word, arg], [n];
    assert ws[1..] == [arg] && ns[1..] == [];
    assert JoinRuns(ws, ns) == word + Spaces(n) + arg;
    assert Runs(ns);
    assert forall k :: 0 <= k < |ws| ==> ws[k] != [] && NoWhitespace(ws[k]);
    assert pre + word + Spaces(n) + arg + post == pre + JoinRuns(ws, ns) + post;
    TokensOfWords(pre, ws, ns, post);
  }
}
