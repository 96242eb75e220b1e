/**
 The part of the POSIX shell that stands between the dispatcher and the worker: how a command
 line is cut into words (sections 2.2.2 and 2.3 of the Shell Command Language, IEEE Std 1003.1).
 Anything that makes the shell do more than cut and unquote (an operator, an expansion, a comment, and a
 pattern unless it is known to match no file) makes Lex answer None: what is started is then not certain.
 */
module ShellWords {
  import opened Common

  /** A word as the dispatcher prints it: bare, or between single quotes. */
  datatype ShellWord = Bare(text: string) | Quoted(text: string)

  function Render(w: ShellWord): string {
    match w
    case Bare(t) => t
    case Quoted(t) => "'" + t + "'"
  }

  function Rendered(ws: seq<ShellWord>): seq<string> {
    seq(|ws|, i requires 0 <= i < |ws| => Render(ws[i]))
  }

  function Texts(ws: seq<ShellWord>): seq<string> {
    seq(|ws|, i requires 0 <= i < |ws| => ws[i].text)
  }

  /** A command line: the rendered words with one blank between neighbours. */
  function Print(ws: seq<ShellWord>): string {
    Join(Rendered(ws), " ")
  }

  predicate IsBlank(c: char) { c == ' ' || c == '\t' }

  /** Characters that never stand for themselves outside quotes (section 2.2), quotes aside. */
  predicate IsSpecial(c: char) {
    c in {'|', '&', ';', '<', '>', '(', ')', '$', '`', '\\', '"', '\n'}
  }

  /** Characters that make a word a pattern, which stands for itself only if it matches no file (section 2.13.3). */
  predicate IsPattern(c: char) { c == '*' || c == '?' || c == '[' }

  /** Characters behind which the reading of an unquoted word is not certain. */
  predicate IsUncertain(c: char, unmatched: bool) { IsSpecial(c) || (IsPattern(c) && !unmatched) }

  /** Characters that do not stand for themselves at the start of a word: comment and tilde. */
  predicate IsStartSpecial(c: char) { c == '#' || c == '~' }

  predicate NoQuote(s: string) { '\'' !in s }

  predicate PlainChar(c: char, unmatched: bool) { !IsBlank(c) && !IsUncertain(c, unmatched) && c != '\'' }

  /** Exactly these are not plain: the operators, expansions and quotes of section 2.2, blanks, and patterns. */
  lemma PlainExactly(c: char, unmatched: bool)
    ensures PlainChar(c, unmatched) <==> c !in "|&;<>()$`\\\"' \t\n" && (unmatched || c !in "*?[")
  {
    var special := "|&;<>()$`\\\"' \t\n";
    assert c in special <==> exists i :: 0 <= i < |special| && special[i] == c;
    assert |special| == 15;
    assert c in "*?[" <==> c == '*' || c == '?' || c == '[';
  }

  /** Exactly these are read differently at the start of a word. */
  lemma StartsExactly(c: char)
    ensures IsStartSpecial(c) <==> c == '#' || c == '~'
  {
  }

  /** A non-empty string that the shell reads, unquoted, as exactly one word meaning itself. */
  predicate PlainWord(s: string, unmatched: bool) {
    s != "" && (forall i :: 0 <= i < |s| ==> PlainChar(s[i], unmatched)) && !IsStartSpecial(s[0])
  }

  predicate WellPrinted(w: ShellWord, unmatched: bool) {
    match w
    case Bare(t) => PlainWord(t, unmatched)
    case Quoted(t) => NoQuote(t)
  }

  datatype Mode = Between | InWord(word: string) | InQuote(word: string)

  function Prepend(ws: seq<string>, rest: Option<seq<string>>): Option<seq<string>> {
    match rest
    case None => None
    case Some(ts) => Some(ws + ts)
  }

  /** Token recognition, one character at a time. */
  function Lex(s: string, m: Mode, unmatched: bool): Option<seq<string>>
    decreases |s|
  {
    if s == "" then
      match m
      case Between => Some([])
      case InWord(w) => Some([w])
      case InQuote(_) => None
    else
      var c, rest := s[0], s[1..];
      match m
      case Between =>
        if IsBlank(c) then Lex(rest, Between, unmatched)
        else if c == '\'' then Lex(rest, InQuote(""), unmatched)
        else if IsUncertain(c, unmatched) || IsStartSpecial(c) then None
        else Lex(rest, InWord([c]), unmatched)
      case InWord(w) =>
        if IsBlank(c) then Prepend([w], Lex(rest, Between, unmatched))
        else if c == '\'' then Lex(rest, InQuote(w), unmatched)
        else if IsUncertain(c, unmatched) then None
        else Lex(rest, InWord(w + [c]), unmatched)
      case InQuote(w) =>
        if c == '\'' then Lex(rest, InWord(w), unmatched)
        else Lex(rest, InQuote(w + [c]), unmatched)
  }

  function Words(line: string, unmatched: bool): Option<seq<string>> { Lex(line, Between, unmatched) }

  // ---- what is printed well is read back ----

  lemma {:induction false} LexPlain(t: string, rest: string, w: string, unmatched: bool)
    requires forall i :: 0 <= i < |t| ==> PlainChar(t[i], unmatched)
    ensures Lex(t + rest, InWord(w), unmatched) == Lex(rest, InWord(w + t), unmatched)
  {
    if t == "" {
      assert t + rest == rest;
      assert w + t == w;
    } else {
      assert PlainChar(t[0], unmatched);
      assert (t + rest)[1..] == t[1..] + rest;
      LexPlain(t[1..], rest, w + [t[0]], unmatched);
      assert w + [t[0]] + t[1..] == w + t;
    }
  }

  lemma {:induction false} LexQuoted(t: string, rest: string, w: string, unmatched: bool)
    requires NoQuote(t)
    ensures Lex(t + "'" + rest, InQuote(w), unmatched) == Lex(rest, InWord(w + t), unmatched)
  {
    var s := t + "'" + rest;
    if t == "" {
      assert s[1..] == rest;
      assert w + t == w;
    } else {
      assert s[0] == t[0];
      assert s[1..] == t[1..] + "'" + rest;
      LexQuoted(t[1..], rest, w + [t[0]], unmatched);
      assert w + [t[0]] + t[1..] == w + t;
    }
  }

  /** One well-printed word takes the lexer from between words into that word. */
  lemma LexOne(w: ShellWord, rest: string, unmatched: bool)
    requires WellPrinted(w, unmatched)
    ensures Lex(Render(w) + rest, Between, unmatched) == Lex(rest, InWord(w.text), unmatched)
  {
    var s := Render(w) + rest;
    match w {
      case Bare(t) =>
        assert PlainChar(t[0], unmatched);
        assert s[0] == t[0] && s[1..] == t[1..] + rest;
        LexPlain(t[1..], rest, [t[0]], unmatched);
        assert [t[0]] + t[1..] == t;
      case Quoted(t) =>
        assert s[0] == '\'' && s[1..] == t + "'" + rest;
        LexQuoted(t, rest, "", unmatched);
        assert "" + t == t;
    }
  }

  lemma PrintCons(w: ShellWord, tail: seq<ShellWord>)
    ensures Print([w] + tail) == Render(w) + if tail == [] then "" else " " + Print(tail)
  {
    assert Rendered([w] + tail) == [Render(w)] + Rendered(tail);
    if tail != [] {
      assert Rendered([w] + tail)[1..] == Rendered(tail);
      assert Render(w) + " " + Print(tail) == Render(w) + (" " + Print(tail));
    }
  }

  lemma LexCons(w: ShellWord, tail: seq<ShellWord>, unmatched: bool)
    requires WellPrinted(w, unmatched)
    ensures Words(Print([w] + tail), unmatched) == Prepend([w.text], Words(Print(tail), unmatched))
  {
    PrintCons(w, tail);
    if tail == [] {
      LexOne(w, "", unmatched);
      assert Rendered(tail) == [] && Print(tail) == "";
      assert [w.text] + [] == [w.text];
    } else {
      LexOne(w, " " + Print(tail), unmatched);
      assert (" " + Print(tail))[1..] == Print(tail);
    }
  }

  lemma PrependTwice(a: seq<string>, b: seq<string>, rest: Option<seq<string>>)
    ensures Prepend(a, Prepend(b, rest)) == Prepend(a + b, rest)
  {
    if rest.Some? {
      assert a + (b + rest.value) == a + b + rest.value;
    }
  }

  /** Well-printed words in front are read back exactly, whatever follows them. */
  lemma {:induction false} LexPrinted(ws: seq<ShellWord>, more: seq<ShellWord>, unmatched: bool)
    requires forall i :: 0 <= i < |ws| ==> WellPrinted(ws[i], unmatched)
    ensures Words(Print(ws + more), unmatched) == Prepend(Texts(ws), Words(Print(more), unmatched))
  {
    if ws == [] {
      assert ws + more == more;
      if Words(Print(more), unmatched).Some? {
        assert Texts(ws) + Words(Print(more), unmatched).value == Words(Print(more), unmatched).value;
      }
    } else {
      assert ws + more == [ws[0]] + (ws[1..] + more);
      LexCons(ws[0], ws[1..] + more, unmatched);
      LexPrinted(ws[1..], more, unmatched);
      PrependTwice([ws[0].text], Texts(ws[1..]), Words(Print(more), unmatched));
      assert Texts(ws) == [ws[0].text] + Texts(ws[1..]);
    }
  }

  /** The tokenizer is a left inverse of the printer on well-printed words. */
  lemma WordsOfPrint(ws: seq<ShellWord>, unmatched: bool)
    requires forall i :: 0 <= i < |ws| ==> WellPrinted(ws[i], unmatched)
    ensures Words(Print(ws), unmatched) == Some(Texts(ws))
  {
    LexPrinted(ws, [], unmatched);
    assert ws + [] == ws;
    assert Words(Print([]), unmatched) == Some([]);
    assert Texts(ws) + [] == Texts(ws);
  }

  // ---- what no reading can produce ----

  /** Quote removal is complete: no word that comes out of the shell holds a single quote. */
  lemma {:induction false} LexRemovesQuotes(s: string, m: Mode, unmatched: bool)
    requires m.Between? || NoQuote(m.word)
    ensures Lex(s, m, unmatched).Some? ==> forall t :: t in Lex(s, m, unmatched).value ==> NoQuote(t)
    decreases |s|
  {
    if s != "" {
      var c, rest := s[0], s[1..];
      match m {
        case Between =>
          LexRemovesQuotes(rest, Between, unmatched);
          LexRemovesQuotes(rest, InQuote(""), unmatched);
          if c != '\'' { LexRemovesQuotes(rest, InWord([c]), unmatched); }
        case InWord(w) =>
          LexRemovesQuotes(rest, Between, unmatched);
          LexRemovesQuotes(rest, InQuote(w), unmatched);
          if c != '\'' { LexRemovesQuotes(rest, InWord(w + [c]), unmatched); }
        case InQuote(w) =>
          LexRemovesQuotes(rest, InWord(w), unmatched);
          if c != '\'' { LexRemovesQuotes(rest, InQuote(w + [c]), unmatched); }
      }
    }
  }

  /** Without quotes in the line, every word read is a plain word. */
  lemma {:induction false} LexOfQuoteFree(s: string, m: Mode, unmatched: bool)
    requires NoQuote(s)
    requires m.Between? || (m.InWord? && PlainWord(m.word, unmatched))
    ensures Lex(s, m, unmatched).Some? ==> forall t :: t in Lex(s, m, unmatched).value ==> PlainWord(t, unmatched)
    decreases |s|
  {
    if s != "" {
      var c, rest := s[0], s[1..];
      assert c in s && NoQuote(rest);
      LexOfQuoteFree(rest, Between, unmatched);
      if PlainChar(c, unmatched) {
        match m {
          case Between => if !IsStartSpecial(c) { LexOfQuoteFree(rest, InWord([c]), unmatched); }
          case InWord(w) => LexOfQuoteFree(rest, InWord(w + [c]), unmatched);
        }
      }
    }
  }

  /** What is read whatever files there are is read the same where no pattern matches any. */
  lemma {:induction false} LexCertain(s: string, m: Mode)
    ensures Lex(s, m, false).Some? ==> Lex(s, m, true) == Lex(s, m, false)
    decreases |s|
  {
    if s != "" {
      var c, rest := s[0], s[1..];
      match m {
        case Between =>
          LexCertain(rest, Between);
          LexCertain(rest, InQuote(""));
          LexCertain(rest, InWord([c]));
        case InWord(w) =>
          LexCertain(rest, Between);
          LexCertain(rest, InQuote(w));
          LexCertain(rest, InWord(w + [c]));
        case InQuote(w) =>
          LexCertain(rest, InWord(w));
          LexCertain(rest, InQuote(w + [c]));
      }
    }
  }

  /** A special character behind complete words makes the line unreadable, whatever follows. */
  lemma {:induction false} LexStops(s: string, c: char, rest: string, m: Mode, unmatched: bool)
    requires Lex(s, m, unmatched).Some? && IsSpecial(c)
    ensures Lex(s + [c] + rest, m, unmatched).None?
    decreases |s|
  {
    var line := s + [c] + rest;
    if s != "" {
      var tail := s[1..];
      assert line[0] == s[0] && line[1..] == tail + [c] + rest;
      match m {
        case Between =>
          if IsBlank(s[0]) { LexStops(tail, c, rest, Between, unmatched); }
          else if s[0] == '\'' { LexStops(tail, c, rest, InQuote(""), unmatched); }
          else { LexStops(tail, c, rest, InWord([s[0]]), unmatched); }
        case InWord(w) =>
          if IsBlank(s[0]) { LexStops(tail, c, rest, Between, unmatched); }
          else if s[0] == '\'' { LexStops(tail, c, rest, InQuote(w), unmatched); }
          else { LexStops(tail, c, rest, InWord(w + [s[0]]), unmatched); }
        case InQuote(w) =>
          if s[0] == '\'' { LexStops(tail, c, rest, InWord(w), unmatched); }
          else { LexStops(tail, c, rest, InQuote(w + [s[0]]), unmatched); }
      }
    }
  }

  // ---- how many commands a text can start ----

  datatype Scan = AtStart | InText | InSingle | InDouble | InComment

  predicate IsIdle(s: string) { forall i :: 0 <= i < |s| ==> IsBlank(s[i]) || s[i] == '\n' }

  /**
   The rest of a command, from the scanner's position on, starts no further command: no control operator
   with something behind it (sections 2.9.2 to 2.9.3) and no command substitution (section 2.6.3). A quote
   behind a dollar sign, which shells read in different ways, is not followed.
   */
  predicate OneCommandFrom(s: string, m: Scan)
    decreases |s|
  {
    if s == "" then true
    else
      var c, rest := s[0], s[1..];
      match m
      case InComment => if c == '\n' then IsIdle(rest) else OneCommandFrom(rest, InComment)
      case InSingle => OneCommandFrom(rest, if c == '\'' then InText else InSingle)
      case InDouble =>
        if c == '`' || (c == '$' && rest != "" && rest[0] == '(') then false
        else if c == '\\' then OneCommandFrom(if rest == "" then rest else rest[1..], InDouble)
        else OneCommandFrom(rest, if c == '"' then InText else InDouble)
      case _ =>
        if c == '`' || (c == '$' && rest != "" && (rest[0] == '(' || rest[0] == '\'')) then false
        else if c == '|' || c == '&' || c == ';' || c == '\n' then IsIdle(rest)
        else if c == '\\' then OneCommandFrom(if rest == "" then rest else rest[1..], InText)
        else if c == '#' && m.AtStart? then OneCommandFrom(rest, InComment)
        else
          OneCommandFrom(rest, if IsBlank(c) then AtStart else if c == '\'' then InSingle
                               else if c == '"' then InDouble else InText)
  }

  /** Arguments that do not make the shell run anything but the command they are given to. */
  predicate OneCommand(args: string) { OneCommandFrom(args, AtStart) }

  function ScanOf(m: Mode): Scan {
    match m
    case Between => AtStart
    case InWord(_) => InText
    case InQuote(_) => InSingle
  }

  /** What starts a further command: an operator with something behind it, or a command substitution. */
  ghost predicate StartsAnother(tail: string) {
    || (tail != "" && tail[0] in "|&;\n" && !IsIdle(tail[1..]))
    || "`" <= tail || "$(" <= tail || "$'" <= tail
  }

  /** Blanks alone start nothing. */
  lemma IdleStartsNothing(tail: string)
    requires IsIdle(tail)
    ensures !StartsAnother(tail)
  {
    if tail != "" {
      assert IsBlank(tail[0]) || tail[0] == '\n';
      assert forall i :: 0 <= i < |tail[1..]| ==> tail[1..][i] == tail[i + 1];
    }
  }

  /** Nothing between single quotes starts a command. */
  lemma {:induction false} SingleQuotesHide(text: string, rest: string)
    requires NoQuote(text)
    ensures OneCommandFrom(text + "'" + rest, InSingle) == OneCommandFrom(rest, InText)
  {
    var s := text + "'" + rest;
    if text == "" {
      assert s[1..] == rest;
    } else {
      assert s[0] == text[0] && s[1..] == text[1..] + "'" + rest;
      SingleQuotesHide(text[1..], rest);
    }
  }

  /** Nothing in a comment does, up to its end of line; what is behind that is another command. */
  lemma {:induction false} CommentsHide(text: string, rest: string)
    requires '\n' !in text
    ensures OneCommandFrom(text, InComment)
    ensures OneCommandFrom(text + "\n" + rest, InComment) == IsIdle(rest)
  {
    var s := text + "\n" + rest;
    if text == "" {
      assert s[1..] == rest;
    } else {
      assert s[0] == text[0] && s[1..] == text[1..] + "\n" + rest;
      CommentsHide(text[1..], rest);
    }
  }

  /** A backslash hides the character behind it; '#' opens a comment at the start of a word only. */
  lemma EscapesAndComments(c: char, rest: string)
    ensures OneCommandFrom("\\" + [c] + rest, InText) == OneCommandFrom(rest, InText)
    ensures OneCommandFrom("\\" + [c] + rest, AtStart) == OneCommandFrom(rest, InText)
    ensures OneCommandFrom("\\" + [c] + rest, InDouble) == OneCommandFrom(rest, InDouble)
    ensures OneCommandFrom("#" + rest, AtStart) == OneCommandFrom(rest, InComment)
    ensures OneCommandFrom("#" + rest, InText) == OneCommandFrom(rest, InText)
    ensures OneCommandFrom("\"" + rest, InText) == OneCommandFrom(rest, InDouble)
    ensures OneCommandFrom("\"" + rest, InDouble) == OneCommandFrom(rest, InText)
  {
    var s := "\\" + [c] + rest;
    assert s[1..] == [c] + rest && s[1..][1..] == rest;
    assert ("#" + rest)[1..] == rest && ("\"" + rest)[1..] == rest;
  }

  /** Behind words without open quotes, and between double quotes where they are substituted, it is found. */
  lemma {:induction false} FurtherCommandFound(s: string, tail: string, m: Mode, unmatched: bool)
    requires Lex(s, m, unmatched).Some? && StartsAnother(tail)
    ensures !OneCommandFrom(s + tail, ScanOf(m))
    ensures "`" <= tail || "$(" <= tail ==> !OneCommandFrom(tail, InDouble)
    decreases |s|
  {
    var line := s + tail;
    if "$(" <= tail { assert tail[1..][0] == '('; }
    if "$'" <= tail { assert tail[1..][0] == '\''; }
    if s == "" {
      assert line == tail;
    } else {
      var c, rest := s[0], s[1..];
      assert line[0] == c && line[1..] == rest + tail;
      match m {
        case Between =>
          var next := if IsBlank(c) then Between else if c == '\'' then InQuote("") else InWord([c]);
          FurtherCommandFound(rest, tail, next, unmatched);
        case InWord(w) =>
          var next := if IsBlank(c) then Between else if c == '\'' then InQuote(w) else InWord(w + [c]);
          FurtherCommandFound(rest, tail, next, unmatched);
        case InQuote(w) =>
          FurtherCommandFound(rest, tail, if c == '\'' then InWord(w) else InQuote(w + [c]), unmatched);
      }
    }
  }

  /** Every text that is read as words is one command. */
  lemma {:induction false} ReadIsOneCommand(s: string, m: Mode, unmatched: bool)
    requires Lex(s, m, unmatched).Some?
    ensures OneCommandFrom(s, ScanOf(m))
    decreases |s|
  {
    if s != "" {
      var c, rest := s[0], s[1..];
      match m {
        case Between =>
          var next := if IsBlank(c) then Between else if c == '\'' then InQuote("") else InWord([c]);
          ReadIsOneCommand(rest, next, unmatched);
        case InWord(w) =>
          var next := if IsBlank(c) then Between else if c == '\'' then InQuote(w) else InWord(w + [c]);
          ReadIsOneCommand(rest, next, unmatched);
        case InQuote(w) =>
          ReadIsOneCommand(rest, if c == '\'' then InWord(w) else InQuote(w + [c]), unmatched);
      }
    }
  }
}
