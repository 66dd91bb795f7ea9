/** matchesETag of internal/edge/server.go: If-None-Match (RFC 9110, sections 8.8.3.2 and 13.1.2) against one tag. */
module EdgeTags {
  import opened Rsn

  // ---- Lists ----

  /** strings.Split(s, ","). */
  function Split(s: string): (parts: seq<string>)
    ensures parts != []
  {
    if s == "" then [""]
    else
      var parts, c := Split(s[..|s| - 1]), s[|s| - 1];
      if c == ',' then parts + [""] else parts[..|parts| - 1] + [parts[|parts| - 1] + [c]]
  }

  function Printed(parts: seq<string>): string {
    if parts == [] then ""
    else if |parts| == 1 then parts[0]
    else Printed(parts[..|parts| - 1]) + "," + parts[|parts| - 1]
  }

  predicate CommaFree(parts: seq<string>) {
    forall i | 0 <= i < |parts| :: ',' !in parts[i]
  }

  lemma SplitAppend(s: string, c: char)
    ensures var parts := Split(s);
            Split(s + [c]) == if c == ',' then parts + [""] else parts[..|parts| - 1] + [parts[|parts| - 1] + [c]]
  {
    assert (s + [c])[..|s|] == s;
  }

  lemma {:induction false} SplitAppendPart(s: string, part: string)
    requires ',' !in part
    ensures var parts := Split(s); Split(s + part) == parts[..|parts| - 1] + [parts[|parts| - 1] + part]
  {
    var parts := Split(s);
    if part == "" {
      assert s + part == s && parts[|parts| - 1] + part == parts[|parts| - 1];
    } else {
      var front, c := part[..|part| - 1], part[|part| - 1];
      SplitAppendPart(s, front);
      assert front + [c] == part;
      Reassociate(s, front, [c]);
      Reassociate(parts[|parts| - 1], front, [c]);
      SplitAppend(s + front, c);
    }
  }

  lemma {:induction false} SplitUndoesPrinting(parts: seq<string>)
    requires parts != [] && CommaFree(parts)
    ensures Split(Printed(parts)) == parts
  {
    var front, last := parts[..|parts| - 1], parts[|parts| - 1];
    assert parts == front + [last];
    if front == [] {
      SplitAppendPart("", last);
      assert "" + last == last;
    } else {
      SplitUndoesPrinting(front);
      SplitAppend(Printed(front), ',');
      SplitAppendPart(Printed(front) + ",", last);
      assert "" + last == last;
    }
  }

  lemma {:induction false} PartsAreCommaFree(s: string)
    ensures CommaFree(Split(s))
  {
    if s == "" {
    } else {
      PartsAreCommaFree(s[..|s| - 1]);
    }
  }

  // ---- The match ----

  /** strings.TrimPrefix(tag, "W/"). */
  function Opaque(tag: string): string {
    if |tag| >= 2 && tag[..2] == "W/" then tag[2..] else tag
  }

  predicate Accepts(part: string, current: string) {
    TrimSpace(part) == "*" || Opaque(TrimSpace(part)) == Opaque(current)
  }

  predicate Matches(ifNoneMatch: string, current: string) {
    && ifNoneMatch != "" && current != ""
    && exists i | 0 <= i < |Split(ifNoneMatch)| :: Accepts(Split(ifNoneMatch)[i], current)
  }

  method MatchesETag(ifNoneMatch: string, current: string) returns (matched: bool)
    ensures matched == Matches(ifNoneMatch, current)
    ensures ifNoneMatch == "" || current == "" ==> !matched
  {
    if ifNoneMatch == "" || current == "" {
      return false;
    }
    var parts := Split(ifNoneMatch);
    for i := 0 to |parts|
      invariant forall j | 0 <= j < i :: !Accepts(parts[j], current)
    {
      var candidate := TrimSpace(parts[i]);
      if candidate == "*" || candidate == current {
        assert Accepts(parts[i], current);
        return true;
      }
      if Opaque(candidate) == Opaque(current) {
        assert Accepts(parts[i], current);
        return true;
      }
    }
    return false;
  }

  /** A member of a list, as a client may print it. */
  datatype Item = Item(lead: string, text: string, tail: string)

  predicate Printable(item: Item) {
    && AllSpace(item.lead) && AllSpace(item.tail) && Tight(item.text)
    && ',' !in item.text && ',' !in item.lead && ',' !in item.tail
  }

  function Texts(items: seq<Item>): (parts: seq<string>)
    ensures |parts| == |items|
    ensures forall i | 0 <= i < |items| :: parts[i] == items[i].lead + items[i].text + items[i].tail
  {
    seq(|items|, i requires 0 <= i < |items| => items[i].lead + items[i].text + items[i].tail)
  }

  lemma {:induction false} PrintedNonEmpty(parts: seq<string>)
    requires parts != [] && parts[0] != ""
    ensures Printed(parts) != ""
  {
    if |parts| <= 1 {
    } else {
      PrintedNonEmpty(parts[..|parts| - 1]);
    }
  }

  /** However the list is spaced, it matches exactly when a member is `*` or weakly equals the current tag. */
  lemma ListMatches(items: seq<Item>, current: string)
    requires items != [] && forall i | 0 <= i < |items| :: Printable(items[i])
    ensures Matches(Printed(Texts(items)), current) <==>
            current != "" && exists i | 0 <= i < |items| ::
              items[i].text == "*" || Opaque(items[i].text) == Opaque(current)
  {
    var parts := Texts(items);
    SplitUndoesPrinting(parts);
    PrintedNonEmpty(parts);
    forall i | 0 <= i < |items|
      ensures Accepts(parts[i], current) <==> items[i].text == "*" || Opaque(items[i].text) == Opaque(current)
    {
      TrimDropsPadding(items[i].lead, items[i].text, items[i].tail);
    }
  }

  // ---- Entity tags ----

  datatype Tag = Tag(weak: bool, text: string)

  function Show(tag: Tag): string {
    (if tag.weak then "W/" else "") + "\"" + tag.text + "\""
  }

  lemma OpaqueOfShow(tag: Tag)
    ensures Opaque(Show(tag)) == "\"" + tag.text + "\"" && Tight(Show(tag)) && Show(tag) != "*"
  {
    Reassociate("W/", "\"", tag.text);
    Reassociate("W/", "\"" + tag.text, "\"");
    assert tag.weak ==> Show(tag)[0] == 'W' && Show(tag)[..2] == "W/" && Show(tag)[2..] == "\"" + tag.text + "\"";
    assert !tag.weak ==> Show(tag)[0] == '\"';
  }

  lemma QuotesKeepApart(a: string, b: string)
    ensures "\"" + a + "\"" == "\"" + b + "\"" <==> a == b
  {
    assert ("\"" + a + "\"")[1..|a| + 1] == a;
    assert ("\"" + b + "\"")[1..|b| + 1] == b;
  }

  predicate ShownBy(item: Item, tag: Tag) {
    Printable(item) && item.text == Show(tag)
  }

  /** Weak comparison: strong or weak, tags agree when their opaque parts do. */
  lemma TagsMatchWeakly(items: seq<Item>, tags: seq<Tag>, current: Tag)
    requires items != [] && |tags| == |items| && forall i | 0 <= i < |items| :: ShownBy(items[i], tags[i])
    ensures Matches(Printed(Texts(items)), Show(current)) <==>
            exists i | 0 <= i < |tags| :: tags[i].text == current.text
  {
    ListMatches(items, Show(current));
    OpaqueOfShow(current);
    forall i | 0 <= i < |items|
      ensures items[i].text == "*" || Opaque(items[i].text) == Opaque(Show(current)) <==> tags[i].text == current.text
    {
      assert ShownBy(items[i], tags[i]);
      OpaqueOfShow(tags[i]);
      QuotesKeepApart(tags[i].text, current.text);
    }
  }

  predicate Starred(part: string) {
    TrimSpace(part) == "*"
  }

  lemma CommaNeedsStar(part: string, current: string)
    requires ',' !in part && ',' in Opaque(current)
    ensures Accepts(part, current) <==> Starred(part)
  {
    TrimIsPart(part);
    assert ',' !in Opaque(TrimSpace(part));
  }

  predicate AnyStarred(parts: seq<string>) {
    exists i | 0 <= i < |parts| :: Starred(parts[i])
  }

  lemma MatchedAlone(text: string)
    requires Tight(text) && ',' !in text
    ensures Matches(text, text)
  {
    SplitUndoesPrinting([text]);
    TrimDropsPadding("", text, "");
    assert "" + text + "" == text;
    assert Accepts(Split(text)[0], text);
  }

  lemma MatchedByStar(text: string)
    requires text != "" && ',' in Opaque(text)
    ensures Matches(text, text) <==> AnyStarred(Split(text))
  {
    var parts := Split(text);
    PartsAreCommaFree(text);
    forall i | 0 <= i < |parts| ensures Accepts(parts[i], text) <==> Starred(parts[i]) {
      CommaNeedsStar(parts[i], text);
    }
  }

  /** A client that sends back the tag it was given is recognised exactly when the tag holds no comma, or its pieces
      happen to hold a star. */
  lemma EchoMatches(tag: Tag)
    ensures Matches(Show(tag), Show(tag)) <==> ',' !in tag.text || AnyStarred(Split(Show(tag)))
  {
    OpaqueOfShow(tag);
    if ',' !in tag.text {
      MatchedAlone(Show(tag));
    } else {
      QuoteKeeps(tag.text, ',');
      MatchedByStar(Show(tag));
    }
  }

  lemma QuoteKeeps(s: string, c: char)
    requires c in s
    ensures c in "\"" + s + "\""
  {
    var k :| 0 <= k < |s| && s[k] == c;
    assert ("\"" + s + "\"")[k + 1] == c;
  }

  lemma {:induction false} TrimLeftIsPart(s: string)
    ensures forall c | c in TrimLeft(s) :: c in s
  {
    if s == "" || !IsSpace(s[0]) {
    } else {
      TrimLeftIsPart(s[1..]);
    }
  }

  lemma {:induction false} TrimRightIsPart(s: string)
    ensures forall c | c in TrimRight(s) :: c in s
  {
    if s == "" || !IsSpace(s[|s| - 1]) {
    } else {
      TrimRightIsPart(s[..|s| - 1]);
    }
  }

  lemma TrimIsPart(s: string)
    ensures forall c | c in TrimSpace(s) :: c in s
  {
    TrimLeftIsPart(s);
    TrimRightIsPart(TrimLeft(s));
  }
}
