/**
 Keyset pagination in the two styles the services use: asking for one row more than a
 page to see whether there is a next one, and taking a full page as the sign of it.
 */
module Pagination {
  import opened Prelude
  import opened Ordering
  import opened Policy

  type Id = string

  datatype Direction = Upward | Downward

  predicate Precedes(d: Direction, a: Id, b: Id) {
    if d == Upward then Before(a, b) else Before(b, a)
  }

  /** Rows as the query orders them; identifiers are unique and never empty. */
  predicate Ordered(d: Direction, rows: seq<Id>) {
    && (forall i, j | 0 <= i < j < |rows| :: Precedes(d, rows[i], rows[j]))
    && (forall r :: r in rows ==> r != "")
  }

  /** The repository query: rows past the cursor, at most `limit` of them. */
  function Query(d: Direction, rows: seq<Id>, cursor: Option<Id>, limit: nat): seq<Id> {
    Cut(Past(d, rows, cursor), limit)
  }

  function Cut(s: seq<Id>, n: nat): seq<Id> {
    if |s| <= n then s else s[..n]
  }

  function Past(d: Direction, rows: seq<Id>, cursor: Option<Id>): seq<Id> {
    if rows == [] then []
    else if cursor == None || Precedes(d, cursor.value, rows[0]) then [rows[0]] + Past(d, rows[1..], cursor)
    else Past(d, rows[1..], cursor)
  }

  /** Token text encoding, and the identifier check made on a decoded token. */
  datatype Codec = Codec(encode: string -> string, decode: string -> Option<string>, valid: Id -> bool)

  /** base64url without padding round trips and never yields white space. */
  ghost predicate RoundTrips(c: Codec, rows: seq<Id>) {
    forall r :: r in rows ==>
      && c.encode(r) != ""
      && TrimSpace(c.encode(r)) == c.encode(r)
      && c.decode(c.encode(r)) == Some(r)
      && c.valid(r)
  }

  function EncodePageToken(c: Codec, value: string): string {
    if value == "" then "" else c.encode(value)
  }

  /** The cursor behind a token: none for the empty one, an error for a bad one. */
  function DecodePageToken(c: Codec, token: string): Result<Option<Id>, ()> {
    var trimmed := TrimSpace(token);
    if trimmed == "" then Ok(None)
    else
      match c.decode(trimmed)
      case None => Err(())
      case Some(v) => if v == "" then Ok(None) else if c.valid(v) then Ok(Some(v)) else Err(())
  }

  function NormalizePageSize(value: int): nat {
    if value <= 0 then 50 else if value > 100 then 100 else value
  }

  datatype Page = Page(rows: seq<Id>, next: string)

  datatype Style = OneMore | FullPage

  function PageAt(style: Style, c: Codec, d: Direction, rows: seq<Id>, limit: nat, cursor: Option<Id>): Page
    requires limit > 0
  {
    match style
    case OneMore => TrimPage(c, Query(d, rows, cursor, limit + 1), limit)
    case FullPage => KeepPage(c, Query(d, rows, cursor, limit), limit)
  }

  function TrimPage(c: Codec, got: seq<Id>, limit: nat): Page
    requires limit > 0
  {
    if |got| > limit then Page(got[..limit], EncodePageToken(c, got[limit - 1])) else Page(got, "")
  }

  function KeepPage(c: Codec, got: seq<Id>, limit: nat): Page {
    Page(got, if |got| == limit && |got| > 0 then EncodePageToken(c, got[|got| - 1]) else "")
  }

  function ListPage(
    style: Style, c: Codec, d: Direction, rows: seq<Id>, pageSize: int, token: string): Result<Page, ()>
  {
    match DecodePageToken(c, token)
    case Err(e) => Err(e)
    case Ok(cursor) => Ok(PageAt(style, c, d, rows, NormalizePageSize(pageSize), cursor))
  }

  /** The page size asked for, between 1 and 100, with 50 for none. */
  lemma PageSizeByValue(value: int)
    ensures value <= 0 ==> NormalizePageSize(value) == 50
    ensures 1 <= value <= 100 ==> NormalizePageSize(value) == value
    ensures value > 100 ==> NormalizePageSize(value) == 100
  {
  }

  /** A page is refused exactly for a token that does not decode, or to no valid identifier. */
  lemma BadTokenIsRefused(
    style: Style, c: Codec, d: Direction, rows: seq<Id>, pageSize: int, token: string)
    ensures var text := TrimSpace(token);
            ListPage(style, c, d, rows, pageSize, token) == Err(()) <==>
              text != "" && (c.decode(text) == None || (c.decode(text).value != "" && !c.valid(c.decode(text).value)))
  {
  }

  /** What a token that is not refused stands for. */
  lemma TokenByFields(c: Codec, token: string)
    requires DecodePageToken(c, token).Ok?
    ensures var text := TrimSpace(token);
            DecodePageToken(c, token).value ==
              if text == "" || c.decode(text) == Some("") then None else c.decode(text)
  {
  }

  /**
   Past any cursor, a row of the table or not, come exactly the rows beyond it: those
   after it going up and those before it going down, in their order.
   */
  lemma {:induction false} PastIsTheRest(d: Direction, rows: seq<Id>, cursor: Id) returns (i: nat)
    requires Ordered(d, rows)
    ensures i <= |rows| && Past(d, rows, Some(cursor)) == rows[i..]
    ensures forall j | 0 <= j < |rows| ::
              j >= i <==> if d == Upward then Before(cursor, rows[j]) else Before(rows[j], cursor)
  {
    if rows == [] {
      i := 0;
    } else if Precedes(d, cursor, rows[0]) {
      i := 0;
      forall j | 0 < j < |rows| ensures Precedes(d, cursor, rows[j]) {
        assert Precedes(d, rows[0], rows[j]);
        if d == Upward {
          BeforeTransitive(cursor, rows[0], rows[j]);
        } else {
          BeforeTransitive(rows[j], rows[0], cursor);
        }
      }
      forall r | r in rows ensures Precedes(d, cursor, r) {
        var j :| 0 <= j < |rows| && rows[j] == r;
      }
      PastAll(d, rows, Some(cursor));
    } else {
      OrderedTail(d, rows);
      i := PastIsTheRest(d, rows[1..], cursor);
      i := i + 1;
      assert rows[1..][i - 1..] == rows[i..];
      assert forall j | 1 <= j < |rows| :: rows[j] == rows[1..][j - 1];
    }
  }

  /** The token a client holds after the first i rows. */
  function TokenAfter(c: Codec, rows: seq<Id>, i: nat): string
    requires i <= |rows|
  {
    if i == 0 then "" else EncodePageToken(c, rows[i - 1])
  }

  lemma {:induction false} PastAll(d: Direction, rows: seq<Id>, cursor: Option<Id>)
    requires cursor == None || forall r :: r in rows ==> Precedes(d, cursor.value, r)
    ensures Past(d, rows, cursor) == rows
  {
    if rows != [] {
      assert rows == [rows[0]] + rows[1..];
      PastAll(d, rows[1..], cursor);
    }
  }

  lemma OrderedTail(d: Direction, rows: seq<Id>)
    requires Ordered(d, rows) && rows != []
    ensures Ordered(d, rows[1..])
  {
    forall r | r in rows[1..] ensures r != "" {
      assert r in rows;
    }
  }

  /** Past a row of the table come exactly the rows after it. */
  lemma {:induction false} PastRow(d: Direction, rows: seq<Id>, i: nat)
    requires Ordered(d, rows) && i < |rows|
    ensures Past(d, rows, Some(rows[i])) == rows[i + 1..]
  {
    if i == 0 {
      BeforeIrreflexive(rows[0]);
      PastAll(d, rows[1..], Some(rows[0]));
    } else {
      assert Precedes(d, rows[0], rows[i]);
      if Precedes(d, rows[i], rows[0]) {
        if d == Upward {
          BeforeTransitive(rows[0], rows[i], rows[0]);
        } else {
          BeforeTransitive(rows[i], rows[0], rows[i]);
        }
        BeforeIrreflexive(rows[0]);
        BeforeIrreflexive(rows[i]);
      }
      OrderedTail(d, rows);
      PastRow(d, rows[1..], i - 1);
    }
  }

  function Least(a: nat, b: nat): nat {
    if a < b then a else b
  }

  /** The held token leads to exactly the rows that follow. */
  lemma TokenLeadsOn(c: Codec, d: Direction, rows: seq<Id>, i: nat)
    requires Ordered(d, rows) && RoundTrips(c, rows) && i <= |rows|
    ensures var cursor := DecodePageToken(c, TokenAfter(c, rows, i));
            cursor.Ok? && Past(d, rows, cursor.value) == rows[i..]
  {
    assert TrimSpace("") == "";
    if i == 0 {
      PastAll(d, rows, None);
      assert rows[0..] == rows;
    } else {
      assert rows[i - 1] in rows;
      PastRow(d, rows, i - 1);
    }
  }

  /** One page: from the held token, the next rows and the token for what follows. */
  lemma PageFrom(style: Style, c: Codec, d: Direction, rows: seq<Id>, pageSize: int, i: nat)
    requires Ordered(d, rows) && RoundTrips(c, rows) && i <= |rows|
    ensures var limit := NormalizePageSize(pageSize);
            var j := Least(i + limit, |rows|);
            var more := if style == OneMore then j < |rows| else j == i + limit;
            ListPage(style, c, d, rows, pageSize, TokenAfter(c, rows, i))
              == Ok(Page(rows[i..j], if more then TokenAfter(c, rows, j) else ""))
  {
    TokenLeadsOn(c, d, rows, i);
    var limit, cursor := NormalizePageSize(pageSize), DecodePageToken(c, TokenAfter(c, rows, i)).value;
    assert ListPage(style, c, d, rows, pageSize, TokenAfter(c, rows, i))
        == Ok(PageAt(style, c, d, rows, limit, cursor));
    PageAtRest(style, c, d, rows, limit, cursor, i);
  }

  lemma PageAtRest(style: Style, c: Codec, d: Direction, rows: seq<Id>, limit: nat, cursor: Option<Id>, i: nat)
    requires limit > 0 && i <= |rows| && Past(d, rows, cursor) == rows[i..]
    ensures var j := Least(i + limit, |rows|);
            var more := if style == OneMore then j < |rows| else j == i + limit;
            PageAt(style, c, d, rows, limit, cursor) == Page(rows[i..j], if more then TokenAfter(c, rows, j) else "")
  {
    match style
    case OneMore => TrimPageOfRest(c, rows, limit, i);
    case FullPage => KeepPageOfRest(c, rows, limit, i);
  }

  lemma TrimPageOfRest(c: Codec, rows: seq<Id>, limit: nat, i: nat)
    requires limit > 0 && i <= |rows|
    ensures TrimPage(c, Cut(rows[i..], limit + 1), limit) ==
            if i + limit < |rows| then Page(rows[i..i + limit], TokenAfter(c, rows, i + limit))
            else Page(rows[i..|rows|], "")
  {
    var got := Cut(rows[i..], limit + 1);
    if i + limit < |rows| {
      assert got == rows[i..i + limit + 1];
      assert got[..limit] == rows[i..i + limit];
    } else {
      assert got == rows[i..|rows|];
    }
  }

  lemma KeepPageOfRest(c: Codec, rows: seq<Id>, limit: nat, i: nat)
    requires limit > 0 && i <= |rows|
    ensures KeepPage(c, Cut(rows[i..], limit), limit) ==
            if i + limit <= |rows| then Page(rows[i..i + limit], TokenAfter(c, rows, i + limit))
            else Page(rows[i..|rows|], "")
  {
    var got := Cut(rows[i..], limit);
    if i + limit <= |rows| {
      assert got == rows[i..i + limit];
    } else {
      assert got == rows[i..|rows|];
    }
  }

  /** Following next tokens from the one held after i rows, until there is none. */
  function Crawl(style: Style, c: Codec, d: Direction, rows: seq<Id>, pageSize: int, i: nat): seq<seq<Id>>
    requires Ordered(d, rows) && RoundTrips(c, rows) && i <= |rows|
    decreases |rows| - i
  {
    PageFrom(style, c, d, rows, pageSize, i);
    var page := ListPage(style, c, d, rows, pageSize, TokenAfter(c, rows, i)).value;
    if page.next == "" then [page.rows]
    else
      assert |page.rows| > 0;
      [page.rows] + Crawl(style, c, d, rows, pageSize, i + |page.rows|)
  }

  function Flatten(pages: seq<seq<Id>>): seq<Id> {
    if pages == [] then [] else pages[0] + Flatten(pages[1..])
  }

  /** m rows split into full pages with nothing left over. */
  predicate Even(m: nat, limit: nat)
    requires limit > 0
  {
    m == 0 || (m >= limit && Even(m - limit, limit))
  }

  lemma {:induction false} EvenIsDivisible(m: nat, limit: nat)
    requires limit > 0
    ensures Even(m, limit) <==> m % limit == 0
  {
    if m >= limit {
      EvenIsDivisible(m - limit, limit);
      RemainderOfRest(m, limit);
    } else {
      SmallRemainder(m, limit);
    }
  }

  lemma SmallRemainder(m: nat, limit: nat)
    requires m < limit
    ensures m % limit == m
  {
  }

  lemma RemainderOfRest(m: nat, limit: nat)
    requires 0 < limit <= m
    ensures m % limit == (m - limit) % limit
  {
    var q, r := (m - limit) / limit, (m - limit) % limit;
    var q', r' := m / limit, m % limit;
    assert limit * (q' - q - 1) == r - r' by {
      assert limit * (q' - q - 1) == limit * q' - limit * q - limit;
    }
    OnlyZeroFits(limit, q' - q - 1, r - r');
  }

  lemma OnlyZeroFits(n: int, a: int, d: int)
    requires n > 0 && n * a == d && -n < d < n
    ensures d == 0
  {
    assert a >= 1 ==> n * a >= n;
    assert a <= -1 ==> n * a <= -n;
  }

  /** Whether a client that has the first j rows is given a token to go on. */
  predicate GoesOn(style: Style, total: nat, limit: nat, i: nat) {
    if style == OneMore then i + limit < total else i + limit <= total
  }

  /** The pages by position, tokens aside. */
  function Pages(style: Style, rows: seq<Id>, limit: nat, i: nat): seq<seq<Id>>
    requires limit > 0 && i <= |rows|
    decreases |rows| - i
  {
    if GoesOn(style, |rows|, limit, i) then [rows[i..i + limit]] + Pages(style, rows, limit, i + limit)
    else [rows[i..]]
  }

  lemma {:induction false} PagesCover(style: Style, rows: seq<Id>, limit: nat, i: nat)
    requires limit > 0 && i <= |rows|
    ensures var pages := Pages(style, rows, limit, i);
            && pages != []
            && Flatten(pages) == rows[i..]
            && (forall k | 0 <= k < |pages| - 1 :: |pages[k]| == limit)
    decreases |rows| - i
  {
    if GoesOn(style, |rows|, limit, i) {
      PagesCover(style, rows, limit, i + limit);
      FlattenCons(rows[i..i + limit], Pages(style, rows, limit, i + limit));
      assert rows[i..i + limit] + rows[i + limit..] == rows[i..];
    } else {
      FlattenCons(rows[i..], []);
      assert rows[i..] + [] == rows[i..];
    }
  }

  lemma FlattenCons(page: seq<Id>, rest: seq<seq<Id>>)
    ensures Flatten([page] + rest) == page + Flatten(rest)
  {
    assert ([page] + rest)[1..] == rest;
  }

  lemma {:induction false} PagesLast(style: Style, rows: seq<Id>, limit: nat, i: nat)
    requires limit > 0 && i <= |rows|
    ensures var pages := Pages(style, rows, limit, i);
            && pages != []
            && (pages[|pages| - 1] == [] <==> if style == OneMore then i == |rows| else Even(|rows| - i, limit))
    decreases |rows| - i
  {
    if GoesOn(style, |rows|, limit, i) {
      PagesLast(style, rows, limit, i + limit);
      var rest := Pages(style, rows, limit, i + limit);
      assert Pages(style, rows, limit, i)[|rest|] == rest[|rest| - 1];
    }
  }

  lemma {:induction false} CrawlIsPages(style: Style, c: Codec, d: Direction, rows: seq<Id>, pageSize: int, i: nat)
    requires Ordered(d, rows) && RoundTrips(c, rows) && i <= |rows|
    ensures Crawl(style, c, d, rows, pageSize, i) == Pages(style, rows, NormalizePageSize(pageSize), i)
    decreases |rows| - i
  {
    var limit := NormalizePageSize(pageSize);
    CrawlUnfolds(style, c, d, rows, pageSize, i);
    PagesUnfold(style, rows, limit, i);
    if GoesOn(style, |rows|, limit, i) {
      CrawlIsPages(style, c, d, rows, pageSize, i + limit);
    }
  }

  lemma PagesUnfold(style: Style, rows: seq<Id>, limit: nat, i: nat)
    requires limit > 0 && i <= |rows|
    ensures Pages(style, rows, limit, i) ==
              if GoesOn(style, |rows|, limit, i) then [rows[i..i + limit]] + Pages(style, rows, limit, i + limit)
              else [rows[i..]]
  {
  }

  lemma CrawlUnfolds(style: Style, c: Codec, d: Direction, rows: seq<Id>, pageSize: int, i: nat)
    requires Ordered(d, rows) && RoundTrips(c, rows) && i <= |rows|
    ensures var limit := NormalizePageSize(pageSize);
            Crawl(style, c, d, rows, pageSize, i) ==
              if GoesOn(style, |rows|, limit, i)
              then [rows[i..i + limit]] + Crawl(style, c, d, rows, pageSize, i + limit) else [rows[i..]]
  {
    PageGoesOn(style, c, d, rows, pageSize, i);
  }

  /** One page of a crawl, and whether there is a token to follow. */
  lemma PageGoesOn(style: Style, c: Codec, d: Direction, rows: seq<Id>, pageSize: int, i: nat)
    requires Ordered(d, rows) && RoundTrips(c, rows) && i <= |rows|
    ensures var limit := NormalizePageSize(pageSize);
            var page := ListPage(style, c, d, rows, pageSize, TokenAfter(c, rows, i));
            && page.Ok?
            && page.value.rows == (if GoesOn(style, |rows|, limit, i) then rows[i..i + limit] else rows[i..])
            && (page.value.next != "" <==> GoesOn(style, |rows|, limit, i))
  {
    PageFrom(style, c, d, rows, pageSize, i);
    TokenNeverEmpty(c, rows, Least(i + NormalizePageSize(pageSize), |rows|));
    assert rows[i..|rows|] == rows[i..];
  }

  lemma TokenNeverEmpty(c: Codec, rows: seq<Id>, j: nat)
    requires RoundTrips(c, rows) && j <= |rows| && forall r :: r in rows ==> r != ""
    ensures j > 0 ==> TokenAfter(c, rows, j) != ""
  {
    if j > 0 {
      assert rows[j - 1] in rows;
    }
  }

  /**
   Following tokens from the empty one terminates and visits every row exactly once in
   order, in full pages but for the last. With the extra row the last page is empty
   only if the table is; with the full-page rule it is empty exactly if the number of
   rows is a multiple of the page size.
   */
  lemma CrawlVisitsEveryRowOnce(style: Style, c: Codec, d: Direction, rows: seq<Id>, pageSize: int)
    requires Ordered(d, rows) && RoundTrips(c, rows)
    ensures var pages := Crawl(style, c, d, rows, pageSize, 0);
            var limit := NormalizePageSize(pageSize);
            && pages != []
            && Flatten(pages) == rows
            && (forall k | 0 <= k < |pages| - 1 :: |pages[k]| == limit)
            && (pages[|pages| - 1] == [] <==> if style == OneMore then rows == [] else |rows| % limit == 0)
  {
    CrawlIsPages(style, c, d, rows, pageSize, 0);
    PagesCover(style, rows, NormalizePageSize(pageSize), 0);
    PagesLast(style, rows, NormalizePageSize(pageSize), 0);
    EvenIsDivisible(|rows|, NormalizePageSize(pageSize));
    assert rows[0..] == rows;
  }
}
