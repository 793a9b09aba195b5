/** Parsing the comma-separated allowlist of user ids. */
module Allowlist {
  import opened Wrappers
  import opened Domain

  type Parser = string -> Option<UUID>

  /** Unicode white space, as trimming sees it. */
  predicate IsSpace(c: char) {
    c in {'\t', '\n', '\U{0B}', '\U{0C}', '\r', ' ', '\U{85}', '\U{A0}', '\U{1680}', '\U{2028}', '\U{2029}',
          '\U{202F}', '\U{205F}', '\U{3000}'}
    || '\U{2000}' <= c <= '\U{200A}'
  }

  function TrimLeft(s: string): string {
    if s != "" && IsSpace(s[0]) then TrimLeft(s[1..]) else s
  }

  function TrimRight(s: string): string {
    if s != "" && IsSpace(s[|s| - 1]) then TrimRight(s[..|s| - 1]) else s
  }

  function TrimSpace(s: string): string {
    TrimRight(TrimLeft(s))
  }

  /** The parts of `s` between commas: one more than there are commas. */
  function Split(s: string): (parts: seq<string>)
    ensures parts != []
  {
    if s == "" then [""]
    else
      var rest := Split(s[1..]);
      if s[0] == ',' then [""] + rest else [[s[0]] + rest[0]] + rest[1..]
  }

  /** The nonblank entries of a list of parts, trimmed. */
  function Entries(parts: seq<string>): seq<string> {
    if parts == [] then []
    else
      var last := TrimSpace(parts[|parts| - 1]);
      Entries(parts[..|parts| - 1]) + if last == "" then [] else [last]
  }

  /** The ids of a list of entries; `entries` that do not parse contribute nothing. */
  function IDs(parse: Parser, entries: seq<string>): seq<UUID> {
    if entries == [] then []
    else
      var id := parse(entries[|entries| - 1]);
      IDs(parse, entries[..|entries| - 1]) + if id.None? then [] else [id.value]
  }

  /** A list without its later repeats. */
  function Deduplicated(ids: seq<UUID>): seq<UUID> {
    if ids == [] then []
    else
      var before, last := Deduplicated(ids[..|ids| - 1]), ids[|ids| - 1];
      if last in before then before else before + [last]
  }

  ghost predicate AllParse(parse: Parser, entries: seq<string>) {
    forall e :: e in entries ==> parse(e).Some?
  }

  /** `a` is in the list before `b` is. */
  ghost predicate ComesBefore(ids: seq<UUID>, a: UUID, b: UUID) {
    exists k: nat :: k < |ids| && ids[k] == a && b !in ids[..k + 1]
  }

  lemma StillComesBefore(ids: seq<UUID>, more: seq<UUID>, a: UUID, b: UUID)
    requires ComesBefore(ids, a, b)
    ensures ComesBefore(ids + more, a, b)
  {
    var k: nat :| k < |ids| && ids[k] == a && b !in ids[..k + 1];
    assert (ids + more)[..k + 1] == ids[..k + 1];
    assert (ids + more)[k] == a;
  }

  lemma ComesBeforeTheNew(ids: seq<UUID>, a: UUID, last: UUID)
    requires a in ids && last !in ids
    ensures ComesBefore(ids + [last], a, last)
  {
    var k: nat :| k < |ids| && ids[k] == a;
    assert (ids + [last])[..k + 1] == ids[..k + 1];
    assert (ids + [last])[k] == a;
  }

  /** `result` lists the elements of `ids`, each once, by first occurrence. */
  ghost predicate ByFirstOccurrence(ids: seq<UUID>, result: seq<UUID>) {
    && (forall id :: id in result <==> id in ids)
    && (forall i, j :: 0 <= i < j < |result| ==> result[i] != result[j])
    && (forall i, j :: 0 <= i < j < |result| ==> ComesBefore(ids, result[i], result[j]))
  }

  lemma {:induction false} DeduplicationIsByFirstOccurrence(ids: seq<UUID>)
    ensures ByFirstOccurrence(ids, Deduplicated(ids))
  {
    if ids == [] {
    } else {
      var init, last := ids[..|ids| - 1], ids[|ids| - 1];
      var before, result := Deduplicated(init), Deduplicated(ids);
      DeduplicationIsByFirstOccurrence(init);
      assert ids == init + [last];
      forall i, j | 0 <= i < j < |result|
        ensures ComesBefore(ids, result[i], result[j])
      {
        if j < |before| {
          assert ComesBefore(init, before[i], before[j]);
          StillComesBefore(init, [last], before[i], before[j]);
        } else {
          assert before[i] in before && last !in before;
          ComesBeforeTheNew(init, before[i], last);
        }
      }
    }
  }

  /** `bad` is the first entry that does not parse. */
  ghost predicate IsFirstBad(parse: Parser, entries: seq<string>, bad: string) {
    exists k :: 0 <= k < |entries| && entries[k] == bad && parse(bad).None? && AllParse(parse, entries[..k])
  }

  /** Parses the configured text, if there is one. Fails on the first nonblank entry that is no id. */
  method ParseUUIDAllowlist(raw: Option<string>, parse: Parser) returns (r: Result<seq<UUID>, string>)
    ensures raw.None? ==> r == Ok([])
    ensures raw.Some? ==>
              var entries := Entries(Split(raw.value));
              && (r.Ok? <==> AllParse(parse, entries))
              && (r.Ok? ==> ByFirstOccurrence(IDs(parse, entries), r.value))
              && (r.Err? ==> IsFirstBad(parse, entries, r.error))
  {
    if raw.None? || TrimSpace(raw.value) == "" {
      if raw.Some? {
        BlankHasNoEntries(raw.value);
      }
      return Ok([]);
    }
    r := ParseParts(Split(raw.value), parse);
    DeduplicationIsByFirstOccurrence(IDs(parse, Entries(Split(raw.value))));
  }

  /** The loop over the parts, with the ids seen so far. */
  method ParseParts(parts: seq<string>, parse: Parser) returns (r: Result<seq<UUID>, string>)
    ensures r.Ok? <==> AllParse(parse, Entries(parts))
    ensures r.Ok? ==> r.value == Deduplicated(IDs(parse, Entries(parts)))
    ensures r.Err? ==> IsFirstBad(parse, Entries(parts), r.error)
  {
    var seen: set<UUID> := {};
    var ids: seq<UUID> := [];
    for i := 0 to |parts|
      invariant AllParse(parse, Entries(parts[..i]))
      invariant ids == Deduplicated(IDs(parse, Entries(parts[..i])))
      invariant forall id :: id in seen <==> id in ids
    {
      var part := TrimSpace(parts[i]);
      EntriesAppend(parts, i);
      if part == "" {
        assert Entries(parts[..i + 1]) == Entries(parts[..i]);
        continue;
      }
      assert Entries(parts[..i + 1]) == Entries(parts[..i]) + [part];
      var id := parse(part);
      if id.None? {
        FirstBadEntry(parse, parts, i);
        return Err(part);
      }
      IDsAppend(parse, Entries(parts[..i]), part, id.value);
      assert id.value in seen <==> id.value in ids;
      if id.value in seen {
        continue;
      }
      seen := seen + {id.value};
      ids := ids + [id.value];
    }
    assert parts[..|parts|] == parts;
    return Ok(ids);
  }

  lemma EntriesAppend(parts: seq<string>, i: nat)
    requires i < |parts|
    ensures var part := TrimSpace(parts[i]);
            Entries(parts[..i + 1]) == Entries(parts[..i]) + if part == "" then [] else [part]
  {
    assert parts[..i + 1][..i] == parts[..i];
  }

  lemma IDsAppend(parse: Parser, entries: seq<string>, e: string, id: UUID)
    requires AllParse(parse, entries) && parse(e) == Some(id)
    ensures AllParse(parse, entries + [e])
    ensures var before := Deduplicated(IDs(parse, entries));
            Deduplicated(IDs(parse, entries + [e])) == if id in before then before else before + [id]
  {
  }

  lemma FirstBadEntry(parse: Parser, parts: seq<string>, i: nat)
    requires i < |parts| && AllParse(parse, Entries(parts[..i]))
    requires TrimSpace(parts[i]) != "" && parse(TrimSpace(parts[i])).None?
    ensures IsFirstBad(parse, Entries(parts), TrimSpace(parts[i]))
    ensures !AllParse(parse, Entries(parts))
  {
    EntriesAppend(parts, i);
    EntriesOfPrefix(parts, i + 1);
    FirstBadInPrefix(parse, Entries(parts[..i]), TrimSpace(parts[i]), Entries(parts));
  }

  lemma FirstBadInPrefix(parse: Parser, good: seq<string>, bad: string, entries: seq<string>)
    requires AllParse(parse, good) && parse(bad).None? && good + [bad] <= entries
    ensures IsFirstBad(parse, entries, bad) && !AllParse(parse, entries)
  {
    var k := |good|;
    assert entries[k] == (good + [bad])[k] && entries[k] in entries;
    assert entries[..k] == good;
  }

  lemma {:induction false} EntriesOfPrefix(parts: seq<string>, n: nat)
    requires n <= |parts|
    ensures Entries(parts[..n]) <= Entries(parts)
    decreases |parts|
  {
    if n == |parts| {
      assert parts[..n] == parts;
    } else {
      var init := parts[..|parts| - 1];
      EntriesOfPrefix(init, n);
      assert init[..n] == parts[..n];
    }
  }

  predicate AllSpace(s: string) {
    forall i :: 0 <= i < |s| ==> IsSpace(s[i])
  }

  lemma {:induction false} TrimmedRightIsBlank(s: string)
    ensures TrimRight(s) == "" <==> AllSpace(s)
  {
    if s == "" || !IsSpace(s[|s| - 1]) {
    } else {
      TrimmedRightIsBlank(s[..|s| - 1]);
      assert s == s[..|s| - 1] + [s[|s| - 1]];
    }
  }

  lemma {:induction false} TrimmedLeftIsBlank(s: string)
    ensures AllSpace(TrimLeft(s)) <==> AllSpace(s)
  {
    if s == "" || !IsSpace(s[0]) {
    } else {
      TrimmedLeftIsBlank(s[1..]);
      assert s == [s[0]] + s[1..];
    }
  }

  lemma {:induction false} SpaceIsOnePart(s: string)
    requires ',' !in s
    ensures Split(s) == [s]
  {
    if s == "" {
    } else {
      SpaceIsOnePart(s[1..]);
      assert [s[0]] + s[1..] == s;
    }
  }

  lemma BlankHasNoEntries(s: string)
    requires TrimSpace(s) == ""
    ensures Entries(Split(s)) == []
  {
    TrimmedRightIsBlank(TrimLeft(s));
    TrimmedLeftIsBlank(s);
    SpaceIsOnePart(s);
    assert [s][..0] == [];
  }

  /** White space, by code point: the ASCII blanks and line breaks, the two Latin-1 ones, and the blanks and
      breaks of general punctuation, with the three further spaces of the standard. */
  lemma SpacesAre(c: char)
    ensures IsSpace(c) <==>
              (9 <= c as int <= 13 || c as int == 32 || c as int == 133 || c as int == 160
               || 8192 <= c as int <= 8202 || c as int in {5760, 8232, 8233, 8239, 8287, 12288})
  {
  }

  /** The texts one after the other, with commas between them. */
  function Joined(texts: seq<string>): string {
    if texts == [] then ""
    else if |texts| == 1 then texts[0]
    else texts[0] + "," + Joined(texts[1..])
  }

  predicate Plain(s: string) {
    s != "" && forall c :: c in s ==> c != ',' && !IsSpace(c)
  }

  lemma {:induction false} SplitAtComma(a: string, rest: string)
    requires ',' !in a
    ensures Split(a + "," + rest) == [a] + Split(rest)
  {
    if a == "" {
      assert a + "," + rest == "," + rest;
      assert ("," + rest)[1..] == rest;
    } else {
      SplitAtComma(a[1..], rest);
      assert (a + "," + rest)[1..] == a[1..] + "," + rest;
      assert [a[0]] + a[1..] == a;
      assert ([a[1..]] + Split(rest))[1..] == Split(rest);
    }
  }

  /** Splitting undoes joining. */
  lemma {:induction false} SplitJoined(texts: seq<string>)
    requires texts != [] && forall t :: t in texts ==> ',' !in t
    ensures Split(Joined(texts)) == texts
    decreases |texts|
  {
    assert texts[0] in texts;
    if |texts| == 1 {
      SpaceIsOnePart(texts[0]);
    } else {
      SplitJoined(texts[1..]);
      SplitAtComma(texts[0], Joined(texts[1..]));
    }
  }

  lemma {:induction false} TrimmingLeft(left: string, rest: string)
    requires AllSpace(left) && (rest == "" || !IsSpace(rest[0]))
    ensures TrimLeft(left + rest) == rest
  {
    if left == "" {
      assert left + rest == rest;
    } else {
      TrimmingLeft(left[1..], rest);
      assert (left + rest)[1..] == left[1..] + rest;
    }
  }

  lemma {:induction false} TrimmingRight(rest: string, right: string)
    requires AllSpace(right) && (rest == "" || !IsSpace(rest[|rest| - 1]))
    ensures TrimRight(rest + right) == rest
  {
    if right == "" {
      assert rest + right == rest;
    } else {
      TrimmingRight(rest, right[..|right| - 1]);
      assert (rest + right)[..|rest + right| - 1] == rest + right[..|right| - 1];
    }
  }

  /** Trimming takes the white space off both ends, and nothing else. */
  lemma TrimmingPadded(left: string, text: string, right: string)
    requires AllSpace(left) && AllSpace(right) && Plain(text)
    ensures TrimSpace(left + text + right) == text
  {
    assert text[0] in text && text[|text| - 1] in text;
    TrimmingLeft(left, text + right);
    assert left + (text + right) == left + text + right;
    TrimmingRight(text, right);
  }

  lemma TrimmingBlank(s: string)
    requires AllSpace(s)
    ensures TrimSpace(s) == ""
  {
    TrimmedLeftIsBlank(s);
    TrimmedRightIsBlank(TrimLeft(s));
  }

  /** One part of a written list: an id with white space on either side, or white space alone. */
  datatype Piece = Blank(space: string) | Entry(left: string, id: UUID, right: string)

  predicate IsPadded(p: Piece) {
    match p
    case Blank(space) => AllSpace(space)
    case Entry(left, _, right) => AllSpace(left) && AllSpace(right)
  }

  function Text(show: UUID -> string, p: Piece): string {
    match p
    case Blank(space) => space
    case Entry(left, id, right) => left + show(id) + right
  }

  function Texts(show: UUID -> string, pieces: seq<Piece>): seq<string> {
    seq(|pieces|, i requires 0 <= i < |pieces| => Text(show, pieces[i]))
  }

  /** The ids a written list names. */
  function Named(pieces: seq<Piece>): seq<UUID> {
    if pieces == [] then []
    else
      var last := pieces[|pieces| - 1];
      Named(pieces[..|pieces| - 1]) + if last.Entry? then [last.id] else []
  }

  lemma EntriesOfOneMore(show: UUID -> string, parse: Parser, entries: seq<string>, p: Piece)
    requires forall id: UUID :: Plain(show(id)) && parse(show(id)) == Some(id)
    requires IsPadded(p) && AllParse(parse, entries)
    ensures var last := TrimSpace(Text(show, p));
            var more := entries + if last == "" then [] else [last];
            && AllParse(parse, more)
            && IDs(parse, more) == IDs(parse, entries) + if p.Entry? then [p.id] else []
  {
    match p {
      case Blank(space) =>
        TrimmingBlank(space);
        assert entries + [] == entries;
      case Entry(left, id, right) =>
        TrimmingPadded(left, show(id), right);
        assert (entries + [show(id)])[..|entries|] == entries;
    }
  }

  lemma {:induction false} EntriesOfPieces(show: UUID -> string, parse: Parser, pieces: seq<Piece>)
    requires forall id: UUID :: Plain(show(id)) && parse(show(id)) == Some(id)
    requires forall p :: p in pieces ==> IsPadded(p)
    ensures AllParse(parse, Entries(Texts(show, pieces))) && IDs(parse, Entries(Texts(show, pieces))) == Named(pieces)
    decreases |pieces|
  {
    if pieces == [] {
    } else {
      var init, last := pieces[..|pieces| - 1], pieces[|pieces| - 1];
      EntriesOfPieces(show, parse, init);
      assert Texts(show, pieces)[..|pieces| - 1] == Texts(show, init);
      assert last in pieces;
      EntriesOfOneMore(show, parse, Entries(Texts(show, init)), last);
    }
  }

  lemma PiecesHaveNoComma(show: UUID -> string, p: Piece)
    requires IsPadded(p) && forall id: UUID :: Plain(show(id))
    ensures ',' !in Text(show, p)
  {
    if p.Entry? {
      assert Plain(show(p.id));
    }
  }

  lemma WrittenEntries(show: UUID -> string, parse: Parser, pieces: seq<Piece>)
    requires forall id: UUID :: Plain(show(id)) && parse(show(id)) == Some(id)
    requires pieces != [] && forall p :: p in pieces ==> IsPadded(p)
    ensures var entries := Entries(Split(Joined(Texts(show, pieces))));
            AllParse(parse, entries) && IDs(parse, entries) == Named(pieces)
  {
    var texts := Texts(show, pieces);
    forall t | t in texts
      ensures ',' !in t
    {
      var i :| 0 <= i < |pieces| && t == texts[i];
      assert pieces[i] in pieces;
      PiecesHaveNoComma(show, pieces[i]);
    }
    SplitJoined(texts);
    EntriesOfPieces(show, parse, pieces);
  }

  /** Round trip: parsing a written list of ids, with any white space around them and any blank parts between
      them, gives the ids without their later repeats, for every way of printing ids that parses back and uses
      neither commas nor white space. */
  method ParseWritten(show: UUID -> string, parse: Parser, pieces: seq<Piece>) returns (r: Result<seq<UUID>, string>)
    requires forall id: UUID :: Plain(show(id)) && parse(show(id)) == Some(id)
    requires pieces != [] && forall p :: p in pieces ==> IsPadded(p)
    ensures r.Ok? && ByFirstOccurrence(Named(pieces), r.value)
  {
    r := ParseUUIDAllowlist(Some(Joined(Texts(show, pieces))), parse);
    WrittenEntries(show, parse, pieces);
  }

  /** The ids printed one after the other, with commas between them. */
  function Rendered(show: UUID -> string, ids: seq<UUID>): string {
    Joined(seq(|ids|, i requires 0 <= i < |ids| => show(ids[i])))
  }

  function Plainly(ids: seq<UUID>): seq<Piece> {
    seq(|ids|, i requires 0 <= i < |ids| => Entry("", ids[i], ""))
  }

  lemma {:induction false} NamedPlainly(ids: seq<UUID>)
    ensures Named(Plainly(ids)) == ids
  {
    if ids == [] {
    } else {
      NamedPlainly(ids[..|ids| - 1]);
      assert Plainly(ids)[..|ids| - 1] == Plainly(ids[..|ids| - 1]);
    }
  }

  /** The same for a list printed plainly, the empty one included. */
  method ParseRendered(show: UUID -> string, parse: Parser, ids: seq<UUID>) returns (r: Result<seq<UUID>, string>)
    requires forall id: UUID :: Plain(show(id)) && parse(show(id)) == Some(id)
    ensures r.Ok? && ByFirstOccurrence(ids, r.value)
  {
    r := ParseUUIDAllowlist(Some(Rendered(show, ids)), parse);
    RenderedEntries(show, parse, ids);
  }

  lemma RenderedEntries(show: UUID -> string, parse: Parser, ids: seq<UUID>)
    requires forall id: UUID :: Plain(show(id)) && parse(show(id)) == Some(id)
    ensures var entries := Entries(Split(Rendered(show, ids)));
            AllParse(parse, entries) && IDs(parse, entries) == ids
  {
    if ids == [] {
      assert Split("") == [""] && [""][..0] == [];
    } else {
      WrittenEntries(show, parse, Plainly(ids));
      NamedPlainly(ids);
      RenderedIsWritten(show, ids);
    }
  }

  lemma RenderedIsWritten(show: UUID -> string, ids: seq<UUID>)
    ensures Joined(Texts(show, Plainly(ids))) == Rendered(show, ids)
  {
    forall i | 0 <= i < |ids|
      ensures Text(show, Plainly(ids)[i]) == show(ids[i])
    {
      assert "" + show(ids[i]) + "" == show(ids[i]);
    }
    assert Texts(show, Plainly(ids)) == seq(|ids|, i requires 0 <= i < |ids| => show(ids[i]));
  }
}
