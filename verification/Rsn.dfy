/** internal/hiscores/rsn.go over the runes of a valid UTF-8 string. */
module Rsn {

  /** unicode.IsSpace, which is also what strings.TrimSpace trims. */
  predicate IsSpace(c: char) {
    || '\t' <= c <= '\r'
    || c == ' '
    || c == '\U{85}' || c == '\U{A0}' || c == '\U{1680}'
    || '\U{2000}' <= c <= '\U{200A}'
    || c == '\U{2028}' || c == '\U{2029}' || c == '\U{202F}' || c == '\U{205F}' || c == '\U{3000}'
  }

  /** One by one: tab, line feed, vertical tab, form feed, carriage return, space, next line, no-break space, and the
      other spaces of Unicode. */
  lemma SpacesAre(c: char)
    ensures IsSpace(c) <==>
            c in "\t\n\U{B}\U{C}\r \U{85}\U{A0}\U{1680}\U{2000}\U{2001}\U{2002}\U{2003}\U{2004}\U{2005}\U{2006}"
                 + "\U{2007}\U{2008}\U{2009}\U{200A}\U{2028}\U{2029}\U{202F}\U{205F}\U{3000}"
  {
  }

  /** What separates words; the identity key takes the underscore for a space. */
  predicate Separates(c: char, underscore: bool) {
    IsSpace(c) || (underscore && c == '_')
  }

  // ---- The specification: words, and words joined by single spaces ----

  predicate StartsWord(s: string, underscore: bool) {
    s == "" || Separates(s[|s| - 1], underscore)
  }

  /** One more rune, at the start of a word or not. */
  function Read(words: seq<string>, starts: bool, separates: bool, c: char): (more: seq<string>)
    requires words != [] || starts
    ensures separates || more != []
  {
    if separates then words
    else if starts then words + [[c]]
    else words[..|words| - 1] + [words[|words| - 1] + [c]]
  }

  /** The maximal runs of runes that do not separate. */
  function Words(s: string, underscore: bool): (words: seq<string>)
    ensures StartsWord(s, underscore) || words != []
  {
    if s == "" then []
    else
      var front, c := s[..|s| - 1], s[|s| - 1];
      Read(Words(front, underscore), StartsWord(front, underscore), Separates(c, underscore), c)
  }

  /** With a single space between them. */
  function Join(words: seq<string>): string {
    if words == [] then ""
    else if |words| == 1 then words[0]
    else Join(words[..|words| - 1]) + " " + words[|words| - 1]
  }

  predicate Clean(word: string, underscore: bool) {
    word != "" && forall i | 0 <= i < |word| :: !Separates(word[i], underscore)
  }

  predicate AllClean(words: seq<string>, underscore: bool) {
    forall i | 0 <= i < |words| :: Clean(words[i], underscore)
  }

  lemma {:induction false} WordsAreClean(s: string, underscore: bool)
    ensures AllClean(Words(s, underscore), underscore)
  {
    if s == "" {
    } else {
      var front := s[..|s| - 1];
      WordsAreClean(front, underscore);
    }
  }

  lemma WordsAppend(s: string, c: char, underscore: bool)
    ensures Words(s + [c], underscore) ==
            Read(Words(s, underscore), StartsWord(s, underscore), Separates(c, underscore), c)
    ensures StartsWord(s + [c], underscore) == Separates(c, underscore)
  {
    assert (s + [c])[..|s|] == s;
  }

  lemma JoinAppend(words: seq<string>, word: string)
    ensures Join(words + [word]) == if words == [] then word else Join(words) + " " + word
  {
    assert (words + [word])[..|words|] == words;
  }

  lemma Reassociate(a: string, b: string, c: string)
    ensures a + (b + c) == a + b + c
  {
  }

  lemma JoinExtend(front: seq<string>, word: string, c: char)
    ensures Join(front + [word + [c]]) == Join(front + [word]) + [c]
  {
    JoinAppend(front, word + [c]);
    JoinAppend(front, word);
    Reassociate(Join(front) + " ", word, [c]);
  }

  /** A rune inside a word is the last of the joined text. */
  lemma JoinReadInside(words: seq<string>, c: char)
    requires words != []
    ensures Join(Read(words, false, false, c)) == Join(words) + [c]
  {
    var front, word := words[..|words| - 1], words[|words| - 1];
    assert words == front + [word];
    JoinExtend(front, word, c);
  }

  lemma JoinReadStart(words: seq<string>, c: char)
    ensures Join(Read(words, true, false, c)) == if words == [] then [c] else Join(words) + " " + [c]
  {
    JoinAppend(words, [c]);
  }

  lemma ReadExtends(words: seq<string>, word: string, c: char)
    ensures Read(words + [word], false, false, c) == words + [word + [c]]
  {
    assert (words + [word])[..|words|] == words;
  }

  /** Reading a word at the end of a text that ends in a separator, or is empty. */
  lemma {:induction false} WordsAppendWord(s: string, word: string, underscore: bool)
    requires StartsWord(s, underscore) && Clean(word, underscore)
    ensures Words(s + word, underscore) == Words(s, underscore) + [word]
    ensures !StartsWord(s + word, underscore)
  {
    var front, c := word[..|word| - 1], word[|word| - 1];
    assert front + [c] == word;
    if front == "" {
      assert word == [c];
      WordsAppend(s, c, underscore);
    } else {
      WordsAppendWord(s, front, underscore);
      Reassociate(s, front, [c]);
      WordsAppend(s + front, c, underscore);
      ReadExtends(Words(s, underscore), front, c);
    }
  }

  /** Splitting undoes joining. */
  lemma {:induction false} WordsOfJoin(words: seq<string>, underscore: bool)
    requires AllClean(words, underscore)
    ensures Words(Join(words), underscore) == words
    ensures words != [] ==> !StartsWord(Join(words), underscore)
  {
    if words == [] {
    } else {
      var front, word := words[..|words| - 1], words[|words| - 1];
      assert words == front + [word];
      WordsOfJoin(front, underscore);
      JoinAppend(front, word);
      if front == [] {
        WordsOfWord(word, underscore);
      } else {
        WordsAfterJoin(Join(front), word, underscore);
      }
    }
  }

  lemma WordsOfWord(word: string, underscore: bool)
    requires Clean(word, underscore)
    ensures Words(word, underscore) == [word] && !StartsWord(word, underscore)
  {
    WordsAppendWord("", word, underscore);
    assert "" + word == word;
  }

  lemma WordsAfterJoin(joined: string, word: string, underscore: bool)
    requires Clean(word, underscore)
    ensures Words(joined + " " + word, underscore) == Words(joined, underscore) + [word]
    ensures !StartsWord(joined + " " + word, underscore)
  {
    WordsAppend(joined, ' ', underscore);
    WordsAppendWord(joined + " ", word, underscore);
  }

  /** What a text and its collapsed form have in common. */
  predicate CollapsesTo(s: string, joined: string) {
    && Words(joined, true) == Words(s, true)
    && (!StartsWord(s, false) ==> joined != "" && joined[|joined| - 1] == s[|s| - 1])
  }

  lemma CollapsedSeparator(front: string, c: char, joined: string)
    requires CollapsesTo(front, joined) && Separates(c, false)
    ensures CollapsesTo(front + [c], joined)
  {
    WordsAppend(front, c, true);
    WordsAppend(front, c, false);
  }

  lemma CollapsedInside(front: string, c: char, joined: string)
    requires CollapsesTo(front, joined) && !Separates(c, false) && !StartsWord(front, false)
    ensures CollapsesTo(front + [c], joined + [c])
  {
    WordsAppend(front, c, true);
    WordsAppend(joined, c, true);
  }

  lemma CollapsedStart(front: string, c: char, joined: string)
    requires CollapsesTo(front, joined) && !Separates(c, false) && StartsWord(front, false)
    ensures CollapsesTo(front + [c], joined + " " + [c])
  {
    WordsAppend(front, c, true);
    WordsAppend(joined, ' ', true);
    WordsAppend(joined + " ", c, true);
  }

  lemma CollapsedFirst(front: string, c: char)
    requires CollapsesTo(front, "") && !Separates(c, false) && StartsWord(front, false)
    ensures CollapsesTo(front + [c], [c])
  {
    WordsAppend(front, c, true);
    WordsAppend("", c, true);
    assert "" + [c] == [c];
  }

  /** Collapsing spaces first does not change the words of the identity key. */
  lemma {:induction false} WordsOfCollapsed(s: string)
    ensures CollapsesTo(s, Join(Words(s, false)))
  {
    if s == "" {
    } else {
      var front, c := s[..|s| - 1], s[|s| - 1];
      var words := Words(front, false);
      assert s == front + [c];
      WordsOfCollapsed(front);
      WordsAppend(front, c, false);
      if Separates(c, false) {
        CollapsedSeparator(front, c, Join(words));
      } else if !StartsWord(front, false) {
        JoinReadInside(words, c);
        CollapsedInside(front, c, Join(words));
      } else {
        JoinReadStart(words, c);
        if words == [] {
          CollapsedFirst(front, c);
        } else {
          CollapsedStart(front, c, Join(words));
        }
      }
    }
  }

  // ---- Trimming ----

  function TrimLeft(s: string): string {
    if s != "" && IsSpace(s[0]) then TrimLeft(s[1..]) else s
  }

  function TrimRight(s: string): string {
    if s != "" && IsSpace(s[|s| - 1]) then TrimRight(s[..|s| - 1]) else s
  }

  function TrimSpace(s: string): string {
    TrimRight(TrimLeft(s))
  }

  lemma {:induction false} WordsAfterSpace(space: char, s: string, underscore: bool)
    requires IsSpace(space)
    ensures Words([space] + s, underscore) == Words(s, underscore)
    ensures StartsWord([space] + s, underscore) == StartsWord(s, underscore)
  {
    if s == "" {
      assert [space] + s == "" + [space];
      WordsAppend("", space, underscore);
    } else {
      var front, c := s[..|s| - 1], s[|s| - 1];
      WordsAfterSpace(space, front, underscore);
      assert s == front + [c] && [space] + s == ([space] + front) + [c];
      WordsAppend([space] + front, c, underscore);
      WordsAppend(front, c, underscore);
    }
  }

  lemma {:induction false} WordsTrimLeft(s: string, underscore: bool)
    ensures Words(TrimLeft(s), underscore) == Words(s, underscore)
  {
    if s == "" || !IsSpace(s[0]) {
    } else {
      WordsTrimLeft(s[1..], underscore);
      assert [s[0]] + s[1..] == s;
      WordsAfterSpace(s[0], s[1..], underscore);
    }
  }

  lemma {:induction false} WordsTrimRight(s: string, underscore: bool)
    ensures Words(TrimRight(s), underscore) == Words(s, underscore)
  {
    if s == "" || !IsSpace(s[|s| - 1]) {
    } else {
      WordsTrimRight(s[..|s| - 1], underscore);
    }
  }

  predicate AllSpace(s: string) {
    forall i | 0 <= i < |s| :: IsSpace(s[i])
  }

  predicate Tight(s: string) {
    s != "" && !IsSpace(s[0]) && !IsSpace(s[|s| - 1])
  }

  lemma {:induction false} TrimDropsLead(lead: string, s: string)
    requires AllSpace(lead) && s != "" && !IsSpace(s[0])
    ensures TrimLeft(lead + s) == s
  {
    if lead == "" {
      assert lead + s == s;
    } else {
      TrimDropsLead(lead[1..], s);
      assert (lead + s)[1..] == lead[1..] + s;
    }
  }

  lemma {:induction false} TrimDropsTail(s: string, tail: string)
    requires AllSpace(tail) && s != "" && !IsSpace(s[|s| - 1])
    ensures TrimRight(s + tail) == s
  {
    if tail == "" {
      assert s + tail == s;
    } else {
      TrimDropsTail(s, tail[..|tail| - 1]);
      assert (s + tail)[..|s + tail| - 1] == s + tail[..|tail| - 1];
    }
  }

  lemma TrimDropsPadding(lead: string, s: string, tail: string)
    requires AllSpace(lead) && AllSpace(tail) && Tight(s)
    ensures TrimSpace(lead + s + tail) == s
  {
    Reassociate(lead, s, tail);
    TrimDropsLead(lead, s + tail);
    TrimDropsTail(s, tail);
  }

  // ---- The loop ----

  lemma {:induction false} JoinIsTight(words: seq<string>, underscore: bool)
    requires AllClean(words, underscore) && words != []
    ensures Tight(Join(words))
  {
    var word := words[|words| - 1];
    if |words| == 1 {
    } else {
      var front := words[..|words| - 1];
      JoinIsTight(front, underscore);
      assert words == front + [word];
      JoinAppend(front, word);
      assert Join(words)[0] == Join(front)[0];
      assert Join(words)[|Join(words)| - 1] == word[|word| - 1];
    }
  }

  function Pad(padded: bool): string {
    if padded then " " else ""
  }

  /** What the builder holds: the words so far, a space before them if the text began with a separator, and a space
      after them if it has just read one. */
  predicate Built(b: string, words: seq<string>, led: bool, last: bool) {
    if words == [] then b == Pad(last) else b == Pad(led) + Join(words) + Pad(last)
  }

  lemma TrimBuilt(b: string, words: seq<string>, led: bool, last: bool, underscore: bool)
    requires Built(b, words, led, last) && AllClean(words, underscore)
    ensures TrimSpace(b) == Join(words)
  {
    if words == [] {
      if last {
        assert b[1..] == "" && TrimLeft(b) == TrimLeft("");
      }
    } else {
      JoinIsTight(words, underscore);
      TrimDropsPadding(Pad(led), Join(words), Pad(last));
    }
  }

  /** The loop after reading s. */
  ghost predicate Reads(b: string, s: string, led: bool, last: bool, underscore: bool) {
    && Built(b, Words(s, underscore), led, last)
    && last == (s != "" && StartsWord(s, underscore))
    && (Words(s, underscore) == [] ==> led == last)
  }

  lemma ReadsSeparator(b: string, s: string, led: bool, last: bool, underscore: bool, c: char)
    requires Reads(b, s, led, last, underscore) && Separates(c, underscore)
    ensures Reads(if last then b else b + " ", s + [c], led || (!last && Words(s, underscore) == []), true, underscore)
  {
    WordsAppend(s, c, underscore);
    if !last {
      assert b + " " == b + Pad(true);
    }
  }

  lemma ReadsStart(b: string, s: string, led: bool, last: bool, underscore: bool, c: char)
    requires Reads(b, s, led, last, underscore) && !Separates(c, underscore) && StartsWord(s, underscore)
    ensures Reads(b + [c], s + [c], led, false, underscore)
  {
    var words := Words(s, underscore);
    WordsAppend(s, c, underscore);
    JoinReadStart(words, c);
    if words != [] {
      Reassociate(Pad(led), Join(words), " ");
      Reassociate(Pad(led), Join(words) + " ", [c]);
    }
  }

  lemma ReadsInside(b: string, s: string, led: bool, last: bool, underscore: bool, c: char)
    requires Reads(b, s, led, last, underscore) && !Separates(c, underscore) && !StartsWord(s, underscore)
    ensures Reads(b + [c], s + [c], led, false, underscore)
  {
    var words := Words(s, underscore);
    WordsAppend(s, c, underscore);
    JoinReadInside(words, c);
    Reassociate(Pad(led), Join(words), [c]);
  }

  /** One turn of the loop. */
  method Write(b: string, c: char, last: bool, underscore: bool, ghost front: string, ghost led: bool)
    returns (more: string, ghost leads: bool)
    requires Reads(b, front, led, last, underscore)
    ensures Reads(more, front + [c], leads, Separates(c, underscore), underscore)
  {
    leads := led;
    if Separates(c, underscore) {
      ReadsSeparator(b, front, led, last, underscore, c);
      leads := led || (!last && Words(front, underscore) == []);
      more := if last then b else b + " ";
    } else {
      if StartsWord(front, underscore) {
        ReadsStart(b, front, led, last, underscore, c);
      } else {
        ReadsInside(b, front, led, last, underscore, c);
      }
      more := b + [c];
    }
  }

  method Collapse(s: string, underscore: bool) returns (b: string, ghost led: bool, ghost lastWasSep: bool)
    ensures Reads(b, s, led, lastWasSep, underscore)
  {
    b := "";
    led := false;
    var last := false;
    for i := 0 to |s|
      invariant Reads(b, s[..i], led, last, underscore)
    {
      b, led := Write(b, s[i], last, underscore, s[..i], led);
      last := Separates(s[i], underscore);
      assert s[..i + 1] == s[..i] + [s[i]];
    }
    assert s[..|s|] == s;
    lastWasSep := last;
  }

  function Display(rsn: string): string {
    Join(Words(rsn, false))
  }

  method SanitizeRsn(rsn: string) returns (clean: string)
    ensures clean == Display(rsn)
  {
    ghost var led, last;
    clean, led, last := Collapse(rsn, false);
    WordsAreClean(rsn, false);
    TrimBuilt(clean, Words(rsn, false), led, last, false);
    clean := TrimSpace(clean);
  }

  // ---- The identity key ----

  /** What strings.ToLower must be, rune by rune: it leaves separators alone, makes none, and is idempotent. */
  predicate LowersWell(lower: char -> char, c: char) {
    if Separates(c, true) then lower(c) == c else !Separates(lower(c), true) && lower(lower(c)) == lower(c)
  }

  ghost predicate IsLower(lower: char -> char) {
    forall c :: LowersWell(lower, c)
  }

  lemma LowerAt(lower: char -> char, c: char, underscore: bool)
    requires IsLower(lower)
    ensures IsSpace(lower(c)) <==> IsSpace(c)
    ensures Separates(lower(c), underscore) <==> Separates(c, underscore)
    ensures lower(lower(c)) == lower(c)
    ensures Separates(c, true) ==> lower(c) == c
  {
    assert LowersWell(lower, c);
  }

  function Lowered(s: string, lower: char -> char): string {
    seq(|s|, i requires 0 <= i < |s| => lower(s[i]))
  }

  function Key(rsn: string, lower: char -> char): string {
    Join(Words(Lowered(rsn, lower), true))
  }

  method NormalizeRsn(rsn: string, lower: char -> char) returns (key: string)
    requires IsLower(lower)
    ensures key == Key(rsn, lower)
  {
    var lowered := Lowered(TrimSpace(rsn), lower);
    ghost var led, last;
    key, led, last := Collapse(lowered, true);
    WordsAreClean(lowered, true);
    TrimBuilt(key, Words(lowered, true), led, last, true);
    key := TrimSpace(key);
    LoweredTrim(rsn, lower);
    WordsTrimLeft(Lowered(rsn, lower), true);
    WordsTrimRight(TrimLeft(Lowered(rsn, lower)), true);
  }

  lemma {:induction false} LoweredTrimLeft(s: string, lower: char -> char)
    requires IsLower(lower)
    ensures Lowered(TrimLeft(s), lower) == TrimLeft(Lowered(s, lower))
  {
    if s == "" {
    } else {
      LowerAt(lower, s[0], true);
    }
    if s != "" && IsSpace(s[0]) {
      LoweredTrimLeft(s[1..], lower);
      assert Lowered(s, lower)[1..] == Lowered(s[1..], lower);
    }
  }

  lemma {:induction false} LoweredTrimRight(s: string, lower: char -> char)
    requires IsLower(lower)
    ensures Lowered(TrimRight(s), lower) == TrimRight(Lowered(s, lower))
  {
    if s == "" {
    } else {
      LowerAt(lower, s[|s| - 1], true);
    }
    if s != "" && IsSpace(s[|s| - 1]) {
      LoweredTrimRight(s[..|s| - 1], lower);
      assert Lowered(s, lower)[..|s| - 1] == Lowered(s[..|s| - 1], lower);
    }
  }

  lemma LoweredTrim(s: string, lower: char -> char)
    requires IsLower(lower)
    ensures Lowered(TrimSpace(s), lower) == TrimSpace(Lowered(s, lower))
  {
    LoweredTrimLeft(s, lower);
    LoweredTrimRight(TrimLeft(s), lower);
  }

  /** Two names share a key exactly when their lowercase words agree. */
  lemma SameKey(x: string, y: string, lower: char -> char)
    ensures Key(x, lower) == Key(y, lower) <==> Words(Lowered(x, lower), true) == Words(Lowered(y, lower), true)
  {
    WordsAreClean(Lowered(x, lower), true);
    WordsAreClean(Lowered(y, lower), true);
    WordsOfJoin(Words(Lowered(x, lower), true), true);
    WordsOfJoin(Words(Lowered(y, lower), true), true);
  }

  function LoweredAll(words: seq<string>, lower: char -> char): seq<string> {
    seq(|words|, i requires 0 <= i < |words| => Lowered(words[i], lower))
  }

  lemma LoweredMore(s: string, c: char, lower: char -> char)
    ensures Lowered(s + [c], lower) == Lowered(s, lower) + [lower(c)]
  {
  }

  /** Lowercasing commutes with reading a rune. */
  lemma LoweredRead(words: seq<string>, starts: bool, separates: bool, c: char, lower: char -> char)
    requires words != [] || starts
    ensures LoweredAll(Read(words, starts, separates, c), lower) ==
            Read(LoweredAll(words, lower), starts, separates, lower(c))
  {
    if separates {
    } else if starts {
      assert Lowered([c], lower) == [lower(c)];
    } else {
      var front, word := words[..|words| - 1], words[|words| - 1];
      assert words == front + [word];
      LoweredMore(word, c, lower);
      ReadExtends(LoweredAll(front, lower), Lowered(word, lower), lower(c));
    }
  }

  /** Lowercasing commutes with splitting ... */
  lemma {:induction false} WordsOfLowered(s: string, lower: char -> char, underscore: bool)
    requires IsLower(lower)
    ensures Words(Lowered(s, lower), underscore) == LoweredAll(Words(s, underscore), lower)
    ensures StartsWord(Lowered(s, lower), underscore) == StartsWord(s, underscore)
  {
    if s == "" {
    } else {
      var front, c := s[..|s| - 1], s[|s| - 1];
      assert s == front + [c];
      WordsOfLowered(front, lower, underscore);
      LoweredMore(front, c, lower);
      LowerAt(lower, c, underscore);
      WordsAppend(Lowered(front, lower), lower(c), underscore);
      WordsAppend(front, c, underscore);
      LoweredRead(Words(front, underscore), StartsWord(front, underscore), Separates(c, underscore), c, lower);
    }
  }

  /** ... and with joining. */
  lemma {:induction false} JoinOfLowered(words: seq<string>, lower: char -> char)
    requires IsLower(lower)
    ensures Join(LoweredAll(words, lower)) == Lowered(Join(words), lower)
  {
    if |words| <= 1 {
    } else {
      var front, word := words[..|words| - 1], words[|words| - 1];
      JoinOfLowered(front, lower);
      assert LoweredAll(words, lower)[..|words| - 1] == LoweredAll(front, lower);
      LowerAt(lower, ' ', true);
      assert Lowered(Join(front) + " " + word, lower) == Lowered(Join(front), lower) + " " + Lowered(word, lower);
    }
  }

  lemma LoweredCollapsed(s: string, lower: char -> char, underscore: bool)
    requires IsLower(lower)
    ensures Lowered(Join(Words(s, underscore)), lower) == Join(Words(Lowered(s, lower), underscore))
  {
    WordsOfLowered(s, lower, underscore);
    JoinOfLowered(Words(s, underscore), lower);
  }

  lemma LoweredTwice(s: string, lower: char -> char)
    requires IsLower(lower)
    ensures Lowered(Lowered(s, lower), lower) == Lowered(s, lower)
  {
    forall i | 0 <= i < |s| ensures lower(lower(s[i])) == lower(s[i]) {
      LowerAt(lower, s[i], true);
    }
  }

  lemma KeyIsIdempotent(rsn: string, lower: char -> char)
    requires IsLower(lower)
    ensures Key(Key(rsn, lower), lower) == Key(rsn, lower)
  {
    var low := Lowered(rsn, lower);
    LoweredCollapsed(low, lower, true);
    LoweredTwice(rsn, lower);
    WordsAreClean(low, true);
    WordsOfJoin(Words(low, true), true);
  }

  lemma SanitizeIsIdempotent(rsn: string)
    ensures Display(Display(rsn)) == Display(rsn)
  {
    WordsAreClean(rsn, false);
    WordsOfJoin(Words(rsn, false), false);
  }

  /** A name already normalised reads the same to the display-side cleanup. */
  lemma SanitizeKeepsKey(rsn: string, lower: char -> char)
    ensures Display(Key(rsn, lower)) == Key(rsn, lower)
  {
    var words := Words(Lowered(rsn, lower), true);
    WordsAreClean(Lowered(rsn, lower), true);
    assert AllClean(words, false);
    WordsOfJoin(words, false);
  }

  /** Cleaning a name up for display does not change whose name it is. */
  lemma KeyOfSanitized(rsn: string, lower: char -> char)
    requires IsLower(lower)
    ensures Key(Display(rsn), lower) == Key(rsn, lower)
  {
    LoweredCollapsed(rsn, lower, false);
    WordsOfCollapsed(Lowered(rsn, lower));
  }

  // ---- What the two readings do not tell apart ----

  /** The same text but for which separators stand where separators stand. */
  predicate AlikeButSeparators(a: string, b: string, underscore: bool) {
    && |a| == |b|
    && forall i | 0 <= i < |a| :: a[i] == b[i] || (Separates(a[i], underscore) && Separates(b[i], underscore))
  }

  lemma {:induction false} SeparatorsAreAlike(a: string, b: string, underscore: bool)
    requires AlikeButSeparators(a, b, underscore)
    ensures Words(a, underscore) == Words(b, underscore) && StartsWord(a, underscore) == StartsWord(b, underscore)
  {
    if a == "" {
    } else {
      var n := |a| - 1;
      SeparatorsAreAlike(a[..n], b[..n], underscore);
      assert a == a[..n] + [a[n]] && b == b[..n] + [b[n]];
      WordsAppend(a[..n], a[n], underscore);
      WordsAppend(b[..n], b[n], underscore);
    }
  }

  function Replaced(s: string, from: char, to: char): string {
    seq(|s|, i requires 0 <= i < |s| => if s[i] == from then to else s[i])
  }

  /** "GIM_nisbro" and "GIM nisbro" are one player. */
  lemma KeyIgnoresUnderscores(rsn: string, lower: char -> char)
    requires IsLower(lower)
    ensures Key(Replaced(rsn, '_', ' '), lower) == Key(rsn, lower)
  {
    LowerAt(lower, '_', true);
    LowerAt(lower, ' ', true);
    SeparatorsAreAlike(Lowered(Replaced(rsn, '_', ' '), lower), Lowered(rsn, lower), true);
  }

  /** So are "GIM Nisbro" and "gim nisbro". */
  lemma KeyIgnoresCase(rsn: string, lower: char -> char)
    requires IsLower(lower)
    ensures Key(Lowered(rsn, lower), lower) == Key(rsn, lower)
  {
    LoweredTwice(rsn, lower);
  }

  /** The no-break space of the game client is a space, to both readings. */
  lemma NoBreakSpaceIsSpace(rsn: string, lower: char -> char)
    requires IsLower(lower)
    ensures Display(Replaced(rsn, '\U{A0}', ' ')) == Display(rsn)
    ensures Key(Replaced(rsn, '\U{A0}', ' '), lower) == Key(rsn, lower)
  {
    SeparatorsAreAlike(Replaced(rsn, '\U{A0}', ' '), rsn, false);
    LowerAt(lower, '\U{A0}', true);
    LowerAt(lower, ' ', true);
    SeparatorsAreAlike(Lowered(Replaced(rsn, '\U{A0}', ' '), lower), Lowered(rsn, lower), true);
  }

  /** But an underscore shows: only the key takes it for a space. */
  lemma DisplayKeepsUnderscores()
    ensures Display("_") == "_" && Display(" ") == ""
  {
    WordsAppend("", '_', false);
    WordsAppend("", ' ', false);
    assert "" + ['_'] == "_" && "" + [' '] == " ";
  }

  // ---- Plausibility ----

  /** One rune of ^[A-Za-z0-9 _-]{1,12}$. */
  predicate PlausibleRune(c: char) {
    'A' <= c <= 'Z' || 'a' <= c <= 'z' || '0' <= c <= '9' || c == ' ' || c == '_' || c == '-'
  }

  predicate IsPlausibleRsn(rsn: string) {
    1 <= |rsn| <= 12 && forall i | 0 <= i < |rsn| :: PlausibleRune(rsn[i])
  }

  /** One to twelve letters, digits, spaces, underscores or hyphens. */
  lemma PlausibleExactly(rsn: string)
    ensures IsPlausibleRsn(rsn) <==>
            && rsn != "" && |rsn| <= 12
            && forall i | 0 <= i < |rsn| ::
                 || rsn[i] in "ABCDEFGHIJKLM" || rsn[i] in "NOPQRSTUVWXYZ"
                 || rsn[i] in "abcdefghijklm" || rsn[i] in "nopqrstuvwxyz" || rsn[i] in "0123456789 _-"
  {
    forall i | 0 <= i < |rsn|
      ensures PlausibleRune(rsn[i]) <==>
              || rsn[i] in "ABCDEFGHIJKLM" || rsn[i] in "NOPQRSTUVWXYZ"
              || rsn[i] in "abcdefghijklm" || rsn[i] in "nopqrstuvwxyz" || rsn[i] in "0123456789 _-"
    {
      UpperIsOne(rsn[i]);
      LowerIsOne(rsn[i]);
    }
  }

  lemma UpperIsOne(c: char)
    ensures 'A' <= c <= 'Z' <==> c in "ABCDEFGHIJKLM" || c in "NOPQRSTUVWXYZ"
  {
    if 'A' <= c <= 'M' {
      assert "ABCDEFGHIJKLM"[c as int - 'A' as int] == c;
    } else if 'N' <= c <= 'Z' {
      assert "NOPQRSTUVWXYZ"[c as int - 'N' as int] == c;
    }
  }

  lemma LowerIsOne(c: char)
    ensures 'a' <= c <= 'z' <==> c in "abcdefghijklm" || c in "nopqrstuvwxyz"
  {
    if 'a' <= c <= 'm' {
      assert "abcdefghijklm"[c as int - 'a' as int] == c;
    } else if 'n' <= c <= 'z' {
      assert "nopqrstuvwxyz"[c as int - 'n' as int] == c;
    }
  }
}
