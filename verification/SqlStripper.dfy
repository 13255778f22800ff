/**
 The read-only SQL check: comments and quoted content are removed before keywords are looked for (dbx_readonly.py).
 */
module SqlStripper {
  import opened Values
  import opened Text

  predicate IsQuote(c: char) {
    c == '\'' || c == '\"' || c == '`'
  }

  predicate Starts(s: string, a: char, b: char) {
    |s| >= 2 && s[0] == a && s[1] == b
  }

  // ----- what the scanner computes -----

  /** The text after the quoted content that s begins inside of. */
  function AfterQuote(s: string, quote: char): (r: string)
    ensures |r| <= |s|
  {
    if s == "" then ""
    else if s[0] == '\\' then (if |s| >= 2 then AfterQuote(s[2..], quote) else "")
    else if s[0] == quote then (if |s| >= 2 && s[1] == quote then AfterQuote(s[2..], quote) else s[1..])
    else AfterQuote(s[1..], quote)
  }

  /** The text after the first line end. */
  function AfterLine(s: string): (r: string)
    ensures |r| <= |s|
  {
    if s == "" then "" else if s[0] == '\n' then s[1..] else AfterLine(s[1..])
  }

  /** The text after the first comment end. */
  function AfterBlock(s: string): (r: string)
    ensures |r| <= |s|
  {
    if s == "" then "" else if Starts(s, '*', '/') then s[2..] else AfterBlock(s[1..])
  }

  function Bare(sql: string): string
    decreases |sql|
  {
    if sql == "" then ""
    else if IsQuote(sql[0]) then " " + Bare(AfterQuote(sql[1..], sql[0]))
    else if Starts(sql, '-', '-') then " " + Bare(AfterLine(sql[2..]))
    else if sql[0] == '#' then " " + Bare(AfterLine(sql[1..]))
    else if Starts(sql, '/', '*') then " " + Bare(AfterBlock(sql[2..]))
    else [sql[0]] + Bare(sql[1..])
  }

  // ----- the scanner -----

  /** `sql.find(c, from)`: the first position of c, or -1. */
  function FindChar(s: string, c: char, from: nat): (r: int)
    ensures r == -1 || (from <= r < |s| && s[r] == c)
    decreases |s| - from
  {
    if from >= |s| then -1 else if s[from] == c then from else FindChar(s, c, from + 1)
  }

  /** The first position of a comment end, or -1. */
  function FindBlockEnd(s: string, from: nat): (r: int)
    ensures r == -1 || (from <= r && r + 1 < |s|)
    decreases |s| - from
  {
    if from + 1 >= |s| then -1 else if s[from] == '*' && s[from + 1] == '/' then from else FindBlockEnd(s, from + 1)
  }

  /** The text from an index that may lie past the end. */
  function From(s: string, index: nat): string {
    if index <= |s| then s[index..] else ""
  }

  lemma {:induction false} LineEndFound(s: string, from: nat)
    ensures From(s, if FindChar(s, '\n', from) < 0 then |s| else FindChar(s, '\n', from) + 1) ==
            AfterLine(From(s, from))
    decreases |s| - from
  {
    if from < |s| {
      LineEndFound(s, from + 1);
      assert s[from..][1..] == s[from + 1..];
    }
  }

  lemma {:induction false} BlockEndFound(s: string, from: nat)
    ensures From(s, if FindBlockEnd(s, from) < 0 then |s| else FindBlockEnd(s, from) + 2) == AfterBlock(From(s, from))
    decreases |s| - from
  {
    if from < |s| {
      BlockEndFound(s, from + 1);
      assert s[from..][1..] == s[from + 1..];
      if Starts(s[from..], '*', '/') { assert s[from..][2..] == s[from + 2..]; }
    }
  }

  /** `_skip_until_line_end`. */
  function SkipUntilLineEnd(sql: string, index: nat): (r: nat)
    ensures index <= |sql| ==> index <= r <= |sql|
    ensures r <= |sql|
  {
    var newline := FindChar(sql, '\n', index);
    if newline < 0 then |sql| else newline + 1
  }

  /** What is still to be output from an index, inside or outside a quote. */
  function Rest(sql: string, index: nat, quote: Option<char>): string {
    if quote.Some? then Bare(AfterQuote(From(sql, index), quote.value)) else Bare(From(sql, index))
  }

  /**
   Inside a quote: an escape or a doubled quote skips two characters, the quote itself ends it, anything else is
   skipped.
   */
  lemma InsideStep(sql: string, index: nat, quote: char)
    requires index < |sql|
    ensures var c := sql[index];
            Rest(sql, index, Some(quote)) ==
            if c == '\\' then Rest(sql, index + 2, Some(quote))
            else if c == quote then
              if index + 1 < |sql| && sql[index + 1] == quote then Rest(sql, index + 2, Some(quote))
              else Rest(sql, index + 1, None)
            else Rest(sql, index + 1, Some(quote))
  {
    hide Bare;
    var rest := sql[index..];
    assert rest[1..] == sql[index + 1..];
    if index + 1 < |sql| { assert rest[2..] == sql[index + 2..]; }
  }

  /** Outside a quote: a quote or a comment opens a region that leaves one space, anything else is output. */
  lemma OutsideStep(sql: string, index: nat)
    requires index < |sql|
    ensures var c := sql[index];
            Rest(sql, index, None) ==
            if IsQuote(c) then " " + Rest(sql, index + 1, Some(c))
            else if c == '-' && index + 1 < |sql| && sql[index + 1] == '-' then
              " " + Bare(AfterLine(From(sql, index + 2)))
            else if c == '#' then " " + Bare(AfterLine(From(sql, index + 1)))
            else if c == '/' && index + 1 < |sql| && sql[index + 1] == '*' then
              " " + Bare(AfterBlock(From(sql, index + 2)))
            else [c] + Rest(sql, index + 1, None)
  {
    hide AfterQuote, AfterLine, AfterBlock;
    var rest := sql[index..];
    assert rest[1..] == sql[index + 1..];
    if index + 1 < |sql| { assert rest[2..] == sql[index + 2..]; }
  }

  lemma Append(a: string, b: string, c: string)
    ensures a + (b + c) == (a + b) + c
  {
  }

  lemma NothingLeft(sql: string, index: nat, quote: Option<char>)
    requires index >= |sql|
    ensures Rest(sql, index, quote) == ""
  {
  }

  /** `_strip_sql_comments_and_literals`. */
  method StripCommentsAndLiterals(sql: string) returns (output: string)
    ensures output == Bare(sql)
  {
    hide Rest, Bare, AfterLine, AfterBlock;
    output := "";
    var index: nat := 0;
    var quote: Option<char> := None;
    assert Rest(sql, 0, None) == Bare(sql) by { RestAtStart(sql); }
    while index < |sql|
      invariant index <= |sql| + 1
      invariant output + Rest(sql, index, quote) == Bare(sql)
    {
      var c := sql[index];
      if quote.Some? {
        InsideStep(sql, index, quote.value);
        if c == '\\' {
          index := index + 2;
          continue;
        }
        if c == quote.value {
          if index + 1 < |sql| && sql[index + 1] == quote.value {
            index := index + 2;
            continue;
          }
          quote := None;
        }
        index := index + 1;
        continue;
      }
      OutsideStep(sql, index);
      if IsQuote(c) {
        quote := Some(c);
        index := index + 1;
        Append(output, " ", Rest(sql, index, quote));
        output := output + " ";
        continue;
      }
      if c == '-' && index + 1 < |sql| && sql[index + 1] == '-' {
        LineEndFound(sql, index + 2);
        index := SkipUntilLineEnd(sql, index + 2);
        RestOutside(sql, index);
        Append(output, " ", Rest(sql, index, quote));
        output := output + " ";
        continue;
      }
      if c == '#' {
        LineEndFound(sql, index + 1);
        index := SkipUntilLineEnd(sql, index + 1);
        RestOutside(sql, index);
        Append(output, " ", Rest(sql, index, quote));
        output := output + " ";
        continue;
      }
      if c == '/' && index + 1 < |sql| && sql[index + 1] == '*' {
        BlockEndFound(sql, index + 2);
        var end := FindBlockEnd(sql, index + 2);
        index := if end < 0 then |sql| else end + 2;
        RestOutside(sql, index);
        Append(output, " ", Rest(sql, index, quote));
        output := output + " ";
        continue;
      }
      index := index + 1;
      Append(output, [c], Rest(sql, index, quote));
      output := output + [c];
    }
    NothingLeft(sql, index, quote);
  }

  lemma RestAtStart(sql: string)
    ensures Rest(sql, 0, None) == Bare(sql)
  {
    assert sql[0..] == sql;
  }

  lemma RestOutside(sql: string, index: nat)
    ensures Rest(sql, index, None) == Bare(From(sql, index))
  {
    hide Bare;
  }

  // ----- the declarative reading: a text is cut into regions -----

  /** An element of quoted content: an escaped character, a doubled quote, or a plain character. */
  datatype Item = Escaped(c: char) | Doubled | Plain(c: char)

  datatype Region =
    | Code(c: char)
    | Quoted(quote: char, items: seq<Item>, closed: bool, dangling: bool)
    | LineComment(hash: bool, text: string, newline: bool)
    | BlockComment(text: string, closed: bool)

  function ItemText(i: Item, quote: char): string {
    match i
    case Escaped(c) => ['\\', c]
    case Doubled => [quote, quote]
    case Plain(c) => [c]
  }

  function ItemsText(items: seq<Item>, quote: char): string {
    if items == [] then "" else ItemText(items[0], quote) + ItemsText(items[1..], quote)
  }

  /** The characters of a region, in the query's own text. */
  function RegionText(r: Region): string {
    match r
    case Code(c) => [c]
    case Quoted(q, items, closed, dangling) => [q] + (ItemsText(items, q) + QuoteEnd(q, closed, dangling))
    case LineComment(hash, text, newline) => (if hash then "#" else "--") + (text + (if newline then "\n" else ""))
    case BlockComment(text, closed) => "/*" + (text + (if closed then "*/" else ""))
  }

  predicate HasBlockEnd(s: string) {
    exists i :: 0 <= i < |s| - 1 && s[i] == '*' && s[i + 1] == '/'
  }

  /** A region before the rest of the text: it is what it claims to be, and it ends where it should. */
  predicate Fits(r: Region, rest: string) {
    match r
    case Code(c) => !IsQuote(c) && c != '#' && !Starts([c] + rest, '-', '-') && !Starts([c] + rest, '/', '*')
    case Quoted(q, items, closed, dangling) =>
      && IsQuote(q)
      && (forall i <- items :: i.Plain? ==> i.c != q && i.c != '\\')
      && (if closed then rest == "" || rest[0] != q else rest == "")
    case LineComment(hash, text, newline) => '\n' !in text && (newline || rest == "")
    case BlockComment(text, closed) => !HasBlockEnd(text) && (closed || rest == "")
  }

  function Flat(rs: seq<Region>): string {
    if rs == [] then "" else RegionText(rs[0]) + Flat(rs[1..])
  }

  /** A segmentation: every region fits before the regions after it. */
  predicate Segmentation(rs: seq<Region>) {
    rs == [] || (Fits(rs[0], Flat(rs[1..])) && Segmentation(rs[1..]))
  }

  /** The code, with one space for each removed region. */
  function Rendered(rs: seq<Region>): string {
    if rs == [] then "" else (if rs[0].Code? then [rs[0].c] else " ") + Rendered(rs[1..])
  }

  function QuoteEnd(q: char, closed: bool, dangling: bool): string {
    if closed then [q] else if dangling then "\\" else ""
  }

  /** One element of quoted content is skipped whole. */
  lemma ItemSkipped(item: Item, q: char, tail: string)
    requires IsQuote(q) && (item.Plain? ==> item.c != q && item.c != '\\')
    ensures AfterQuote(ItemText(item, q) + tail, q) == AfterQuote(tail, q)
  {
    var s := ItemText(item, q) + tail;
    assert s[|ItemText(item, q)|..] == tail;
  }

  lemma {:induction false} QuotedSkipped(items: seq<Item>, q: char, closed: bool, dangling: bool, rest: string)
    requires IsQuote(q) && (forall i <- items :: i.Plain? ==> i.c != q && i.c != '\\')
    requires if closed then rest == "" || rest[0] != q else rest == ""
    ensures AfterQuote(ItemsText(items, q) + (QuoteEnd(q, closed, dangling) + rest), q) == (if closed then rest else "")
  {
    hide ItemText;
    var end := QuoteEnd(q, closed, dangling) + rest;
    if items == [] {
      assert ItemsText(items, q) + end == end;
      if closed { assert end[1..] == rest; }
    } else {
      hide AfterQuote;
      assert items[0] in items;
      forall i | i in items[1..] ensures i.Plain? ==> i.c != q && i.c != '\\' { assert i in items; }
      QuotedSkipped(items[1..], q, closed, dangling, rest);
      var tail := ItemsText(items[1..], q) + end;
      ItemSkipped(items[0], q, tail);
      assert ItemsText(items, q) + end == ItemText(items[0], q) + tail;
    }
  }

  lemma {:induction false} LineSkipped(text: string, newline: bool, rest: string)
    requires '\n' !in text && (newline || rest == "")
    ensures AfterLine(text + (if newline then "\n" else "") + rest) == rest
  {
    var end := if newline then "\n" else "";
    var s := text + end + rest;
    if text == "" {
      assert s == end + rest;
      if newline { assert s[1..] == rest; }
    } else {
      assert text[0] in text;
      assert s[1..] == text[1..] + end + rest;
      LineSkipped(text[1..], newline, rest);
    }
  }

  lemma NoBlockEndAfter(text: string)
    requires text != "" && !HasBlockEnd(text)
    ensures !HasBlockEnd(text[1..])
  {
    forall i | 0 <= i < |text[1..]| - 1 ensures !(text[1..][i] == '*' && text[1..][i + 1] == '/') {
      assert text[1..][i] == text[i + 1] && text[1..][i + 1] == text[i + 2];
    }
  }

  lemma {:induction false} BlockSkipped(text: string, closed: bool, rest: string)
    requires !HasBlockEnd(text) && (closed || rest == "")
    ensures AfterBlock(text + (if closed then "*/" else "") + rest) == rest
  {
    var end := if closed then "*/" else "";
    var s := text + end + rest;
    if text == "" {
      assert s == end + rest;
      if closed { assert s[2..] == rest; }
    } else {
      assert s[1..] == text[1..] + end + rest;
      assert |text| >= 2 ==> s[1] == text[1];
      assert !Starts(s, '*', '/');
      NoBlockEndAfter(text);
      BlockSkipped(text[1..], closed, rest);
    }
  }

  lemma QuotedRegionStripped(q: char, items: seq<Item>, closed: bool, dangling: bool, rest: string)
    requires Fits(Quoted(q, items, closed, dangling), rest)
    ensures Bare(RegionText(Quoted(q, items, closed, dangling)) + rest) == " " + Bare(rest)
  {
    hide AfterQuote, ItemsText;
    var s := RegionText(Quoted(q, items, closed, dangling)) + rest;
    assert s[0] == q && s[1..] == ItemsText(items, q) + (QuoteEnd(q, closed, dangling) + rest);
    QuotedSkipped(items, q, closed, dangling, rest);
  }

  lemma LineRegionStripped(hash: bool, text: string, newline: bool, rest: string)
    requires Fits(LineComment(hash, text, newline), rest)
    ensures Bare(RegionText(LineComment(hash, text, newline)) + rest) == " " + Bare(rest)
  {
    hide AfterLine;
    var s := RegionText(LineComment(hash, text, newline)) + rest;
    assert s[if hash then 1 else 2..] == text + (if newline then "\n" else "") + rest;
    LineSkipped(text, newline, rest);
  }

  lemma BlockRegionStripped(text: string, closed: bool, rest: string)
    requires Fits(BlockComment(text, closed), rest)
    ensures Bare(RegionText(BlockComment(text, closed)) + rest) == " " + Bare(rest)
  {
    hide AfterBlock;
    var s := RegionText(BlockComment(text, closed)) + rest;
    assert s[2..] == text + (if closed then "*/" else "") + rest;
    BlockSkipped(text, closed, rest);
  }

  lemma RegionStripped(r: Region, rest: string)
    requires Fits(r, rest)
    ensures Bare(RegionText(r) + rest) == (if r.Code? then [r.c] else " ") + Bare(rest)
  {
    match r
    case Code(c) =>
      assert ([c] + rest)[1..] == rest;
    case Quoted(q, items, closed, dangling) => QuotedRegionStripped(q, items, closed, dangling, rest);
    case LineComment(hash, text, newline) => LineRegionStripped(hash, text, newline, rest);
    case BlockComment(text, closed) => BlockRegionStripped(text, closed, rest);
  }

  /** The scanner refines the declarative reading: for any segmentation of a query, its output is the rendered code. */
  lemma {:induction false} StripsEverySegmentation(rs: seq<Region>)
    requires Segmentation(rs)
    ensures Bare(Flat(rs)) == Rendered(rs)
  {
    if rs == [] {
    } else {
      RegionStripped(rs[0], Flat(rs[1..]));
      StripsEverySegmentation(rs[1..]);
    }
  }

  // ----- every query has a segmentation -----

  lemma ItemsPrepended(item: Item, items: seq<Item>, q: char, end: string)
    ensures ItemsText([item] + items, q) + end == ItemText(item, q) + (ItemsText(items, q) + end)
  {
    hide ItemText;
    assert ([item] + items)[1..] == items;
  }

  /** The element that quoted content begins with, unless it ends here. */
  function NextItem(s: string, q: char): Option<Item> {
    if s == "" then None
    else if s[0] == '\\' then (if |s| == 1 then None else Some(Escaped(s[1])))
    else if s[0] == q then (if |s| == 1 || s[1] != q then None else Some(Doubled))
    else Some(Plain(s[0]))
  }

  lemma NextItemSplits(s: string, q: char)
    requires IsQuote(q) && NextItem(s, q).Some?
    ensures var item := NextItem(s, q).value; var n := |ItemText(item, q)|;
            && 0 < n <= |s| && s == ItemText(item, q) + s[n..] && (item.Plain? ==> item.c != q && item.c != '\\')
  {
  }

  lemma {:induction false} ReadQuoted(s: string, q: char)
    returns (items: seq<Item>, closed: bool, dangling: bool, rest: string)
    requires IsQuote(q)
    ensures s == ItemsText(items, q) + (QuoteEnd(q, closed, dangling) + rest) && |rest| <= |s|
    ensures forall i <- items :: i.Plain? ==> i.c != q && i.c != '\\'
    ensures if closed then rest == "" || rest[0] != q else rest == ""
    decreases |s|
  {
    var next := NextItem(s, q);
    if next.None? {
      items, closed, dangling, rest := [], s != "" && s[0] == q, s != "" && s[0] != q, if s == "" then "" else s[1..];
      assert s == QuoteEnd(q, closed, dangling) + rest;
    } else {
      hide NextItem, QuoteEnd, ItemText;
      NextItemSplits(s, q);
      var item := next.value;
      var more;
      more, closed, dangling, rest := ReadQuoted(s[|ItemText(item, q)|..], q);
      items := [item] + more;
      ItemsPrepended(item, more, q, QuoteEnd(q, closed, dangling) + rest);
    }
  }

  lemma {:induction false} ReadLine(s: string) returns (text: string, newline: bool, rest: string)
    ensures s == text + ((if newline then "\n" else "") + rest) && '\n' !in text && (newline || rest == "") &&
            |rest| <= |s|
    decreases |s|
  {
    if s == "" {
      return "", false, "";
    }
    if s[0] == '\n' {
      assert s == "\n" + s[1..];
      return "", true, s[1..];
    }
    var more;
    more, newline, rest := ReadLine(s[1..]);
    text := [s[0]] + more;
  }

  lemma {:induction false} ReadBlock(s: string) returns (text: string, closed: bool, rest: string)
    ensures s == text + ((if closed then "*/" else "") + rest) && !HasBlockEnd(text) && (closed || rest == "") &&
            |rest| <= |s|
    decreases |s|
  {
    if s == "" {
      return "", false, "";
    }
    if Starts(s, '*', '/') {
      assert s == "*/" + s[2..];
      return "", true, s[2..];
    }
    var more;
    more, closed, rest := ReadBlock(s[1..]);
    text := [s[0]] + more;
    forall i | 0 <= i < |text| - 1 ensures !(text[i] == '*' && text[i + 1] == '/') {
      if i == 0 { assert s[1] == text[1]; } else { assert text[i] == more[i - 1] && text[i + 1] == more[i]; }
    }
  }

  lemma Concat3(a: string, b: string, c: string, d: string)
    ensures a + (b + (c + d)) == (a + (b + c)) + d
  {
  }

  /** The first region of a nonempty query, and the text after it. */
  lemma ReadRegion(sql: string) returns (r: Region, rest: string)
    requires sql != ""
    ensures Fits(r, rest) && sql == RegionText(r) + rest && |rest| < |sql|
  {
    hide ItemsText, QuoteEnd, HasBlockEnd;
    if IsQuote(sql[0]) {
      var items, closed, dangling;
      items, closed, dangling, rest := ReadQuoted(sql[1..], sql[0]);
      r := Quoted(sql[0], items, closed, dangling);
      assert sql == [sql[0]] + sql[1..];
      Concat3([sql[0]], ItemsText(items, sql[0]), QuoteEnd(sql[0], closed, dangling), rest);
    } else if Starts(sql, '-', '-') || sql[0] == '#' {
      var hash := !Starts(sql, '-', '-');
      var mark := if hash then "#" else "--";
      var text, newline;
      text, newline, rest := ReadLine(sql[|mark|..]);
      r := LineComment(hash, text, newline);
      assert sql == mark + sql[|mark|..];
      Concat3(mark, text, if newline then "\n" else "", rest);
    } else if Starts(sql, '/', '*') {
      var text, closed;
      text, closed, rest := ReadBlock(sql[2..]);
      r := BlockComment(text, closed);
      assert sql == "/*" + sql[2..];
      Concat3("/*", text, if closed then "*/" else "", rest);
    } else {
      r, rest := Code(sql[0]), sql[1..];
      assert sql == [sql[0]] + rest;
    }
  }

  /** Every query has a segmentation, so the scanner's output is always the rendered code of one. */
  lemma {:induction false} HasSegmentation(sql: string) returns (rs: seq<Region>)
    ensures Segmentation(rs) && Flat(rs) == sql
    ensures Bare(sql) == Rendered(rs)
    decreases |sql|
  {
    if sql == "" {
      rs := [];
    } else {
      var r, rest := ReadRegion(sql);
      var more := HasSegmentation(rest);
      rs := [r] + more;
      assert rs[1..] == more;
    }
    StripsEverySegmentation(rs);
  }

  // ----- what the output cannot contain -----

  /** No quote, no hash, no comment opening. */
  predicate Unmarked(s: string) {
    && (forall i :: 0 <= i < |s| ==> !IsQuote(s[i]) && s[i] != '#')
    && (forall i :: 0 <= i < |s| - 1 ==> !(s[i] == '-' && s[i + 1] == '-') && !(s[i] == '/' && s[i + 1] == '*'))
  }

  lemma {:induction false} BareIsUnmarked(sql: string)
    ensures Unmarked(Bare(sql))
    ensures Bare(sql) != "" ==> Bare(sql)[0] == ' ' || (sql != "" && Bare(sql)[0] == sql[0])
    decreases |sql|
  {
    if sql == "" {
    } else {
      var rest :=
        if IsQuote(sql[0]) then AfterQuote(sql[1..], sql[0])
        else if Starts(sql, '-', '-') then AfterLine(sql[2..])
        else if sql[0] == '#' then AfterLine(sql[1..])
        else if Starts(sql, '/', '*') then AfterBlock(sql[2..])
        else sql[1..];
      BareIsUnmarked(rest);
      var head := Bare(sql)[0];
      assert Bare(sql) == [head] + Bare(rest);
      Prepended(head, Bare(rest));
    }
  }

  lemma Prepended(c: char, s: string)
    requires Unmarked(s) && !IsQuote(c) && c != '#'
    requires s != "" ==> !(c == '-' && s[0] == '-') && !(c == '/' && s[0] == '*')
    ensures Unmarked([c] + s)
  {
    var t := [c] + s;
    forall i | 0 <= i < |t| - 1 ensures !(t[i] == '-' && t[i + 1] == '-') && !(t[i] == '/' && t[i + 1] == '*') {
      if i > 0 { assert t[i] == s[i - 1] && t[i + 1] == s[i]; }
    }
  }

  lemma {:induction false} UnmarkedIsKept(s: string)
    requires Unmarked(s)
    ensures Bare(s) == s
  {
    if s == "" {
    } else {
      assert s == [s[0]] + s[1..];
      UnmarkedIsKept(s[1..]);
    }
  }

  /** Stripping an already stripped query changes nothing. */
  lemma StrippingIsIdempotent(sql: string)
    ensures Bare(Bare(sql)) == Bare(sql)
  {
    BareIsUnmarked(sql);
    UnmarkedIsKept(Bare(sql));
  }

  // ----- the verdict -----

  /** The three keyword patterns, as tests of a stripped query. */
  datatype Keywords = Keywords(readStart: string -> bool, mutation: string -> bool, lockingRead: string -> bool)

  datatype Verdict = Allowed | NoQuery | SeveralStatements | NotARead | Writes

  /** `validate_dbx_tool_arguments`, for the query tool. */
  function VerdictOf(sql: Value, k: Keywords): Verdict {
    if !sql.Str? || Strip(sql.s) == "" then NoQuery
    else
      var normalized := Strip(Bare(sql.s));
      if ';' in normalized then SeveralStatements
      else if !k.readStart(normalized) then NotARead
      else if k.mutation(normalized) || k.lockingRead(normalized) then Writes
      else Allowed
  }

  lemma {:induction false} RegionNotBlank(rs: seq<Region>, i: nat)
    requires Segmentation(rs) && i < |rs| && !rs[i].Code?
    ensures !Blank(Flat(rs))
  {
    var text := RegionText(rs[0]);
    if i == 0 {
      assert !IsSpace(text[0]);
      assert text[0] in Flat(rs) by { assert Flat(rs)[0] == text[0]; }
    } else {
      RegionNotBlank(rs[1..], i - 1);
      var rest := Flat(rs[1..]);
      var c :| c in rest && !IsSpace(c);
      assert c in Flat(rs);
    }
  }

  lemma {:induction false} RenderedEdit(rs: seq<Region>, i: nat, r: Region)
    requires i < |rs| && !rs[i].Code? && !r.Code?
    ensures Rendered(rs[i := r]) == Rendered(rs)
  {
    if i > 0 {
      assert rs[i := r][1..] == rs[1..][i - 1 := r];
      RenderedEdit(rs[1..], i - 1, r);
    } else {
      assert rs[0 := r][1..] == rs[1..];
    }
  }

  /**
   The verdict does not depend on what literals and comments hold: any region may be edited or replaced by another.
   */
  lemma VerdictIgnoresRegions(rs: seq<Region>, i: nat, r: Region, k: Keywords)
    requires i < |rs| && !rs[i].Code? && !r.Code?
    requires Segmentation(rs) && Segmentation(rs[i := r])
    ensures VerdictOf(Str(Flat(rs)), k) == VerdictOf(Str(Flat(rs[i := r])), k)
  {
    hide Bare, Flat, Rendered, Segmentation, Strip;
    StripsEverySegmentation(rs);
    StripsEverySegmentation(rs[i := r]);
    RenderedEdit(rs, i, r);
    RegionNotBlank(rs, i);
    RegionNotBlank(rs[i := r], i);
    StripIsStripped(Flat(rs));
    StripIsStripped(Flat(rs[i := r]));
  }

  /** What an allowed query's code amounts to: a read, alone, without a write or locking keyword. */
  lemma AllowedIff(sql: string, k: Keywords)
    ensures VerdictOf(Str(sql), k) == Allowed <==>
            exists rs :: && Segmentation(rs) && Flat(rs) == sql && !Blank(sql)
                         && var code := Strip(Rendered(rs));
                            ';' !in code && k.readStart(code) && !k.mutation(code) && !k.lockingRead(code)
  {
    hide Strip, Bare, Segmentation, Flat, Rendered, Blank;
    StripIsStripped(sql);
    var rs := HasSegmentation(sql);
    forall qs | Segmentation(qs) && Flat(qs) == sql ensures Rendered(qs) == Bare(sql) { StripsEverySegmentation(qs); }
  }
}
