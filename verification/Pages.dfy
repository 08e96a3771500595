/** Keyset pagination: page tokens are ids, a page is read with one row of look-ahead. Ids are UUIDs in
    their canonical spelling; the database's UUID order is then the order of the strings. */
module Pages {
  import opened Option
  import opened Order

  const DEFAULT_PAGE_SIZE := 10
  const MAX_PAGE_SIZE := 100

  // ---- UUIDs ----

  /** A UUID as its 32 hexadecimal digits. */
  type Digits = d: seq<nat> | |d| == 32 && forall i | 0 <= i < 32 :: d[i] < 16
    witness seq(32, _ => 0)

  function HexDigit(c: char): Option<nat> {
    if '0' <= c <= '9' then Some(c as nat - '0' as nat)
    else if 'a' <= c <= 'f' then Some(c as nat - 'a' as nat + 10)
    else if 'A' <= c <= 'F' then Some(c as nat - 'A' as nat + 10)
    else None
  }

  function HexChar(d: nat): char
    requires d < 16
  {
    if d < 10 then ('0' as nat + d) as char else ('a' as nat + (d - 10)) as char
  }

  function AllDigits(s: string): Option<seq<nat>> {
    if s == "" then Some([])
    else
      match (HexDigit(s[0]), AllDigits(s[1..]))
      case (Some(d), Some(ds)) => Some([d] + ds)
      case _ => None
  }

  /** The standard spelling with its four hyphens removed. */
  function Unhyphened(s: string): string
    requires |s| == 36
  {
    s[..8] + s[9..13] + s[14..18] + s[19..23] + s[24..]
  }

  predicate HyphensRight(s: string) {
    |s| == 36 && s[8] == '-' && s[13] == '-' && s[18] == '-' && s[23] == '-'
  }

  function Lower(c: char): char {
    if 'A' <= c <= 'Z' then (c as nat + 32) as char else c
  }

  predicate IsUrnPrefix(s: string) {
    |s| == 9 && forall i | 0 <= i < 9 :: Lower(s[i]) == "urn:uuid:"[i]
  }

  /** Parsing as the UUID library does it: the standard spelling, with an URN prefix, with one extra
      character on each side, or 32 bare digits; digits in either case. */
  function ParseUuid(s: string): Option<Digits> {
    var digits :=
      if |s| == 36 && HyphensRight(s) then AllDigits(Unhyphened(s))
      else if |s| == 45 && IsUrnPrefix(s[..9]) && HyphensRight(s[9..]) then AllDigits(Unhyphened(s[9..]))
      else if |s| == 38 && HyphensRight(s[1..37]) then AllDigits(Unhyphened(s[1..37]))
      else if |s| == 32 then AllDigits(s)
      else None;
    match digits
    case None => None
    case Some(ds) => if |ds| == 32 && forall i | 0 <= i < 32 :: ds[i] < 16 then Some(ds) else None
  }

  function Show(d: seq<nat>): string
    requires forall i | 0 <= i < |d| :: d[i] < 16
  {
    seq(|d|, i requires 0 <= i < |d| => HexChar(d[i]))
  }

  /** The canonical spelling, in which ids are stored and handed out. */
  function Format(d: Digits): string {
    var s := Show(d);
    s[..8] + "-" + s[8..12] + "-" + s[12..16] + "-" + s[16..20] + "-" + s[20..]
  }

  lemma {:induction false} ShowDigits(d: seq<nat>)
    requires forall i | 0 <= i < |d| :: d[i] < 16
    ensures AllDigits(Show(d)) == Some(d)
  {
    if d != [] {
      ShowDigits(d[1..]);
      assert Show(d)[1..] == Show(d[1..]);
      assert d == [d[0]] + d[1..];
    }
  }

  /** Every UUID is read back from its canonical spelling. */
  lemma FormatParse(d: Digits)
    ensures ParseUuid(Format(d)) == Some(d)
  {
    ShowDigits(d);
    var s, f := Show(d), Format(d);
    assert f[..8] == s[..8] && f[8] == '-' && f[9..13] == s[8..12] && f[13] == '-';
    assert f[14..18] == s[12..16] && f[18] == '-' && f[19..23] == s[16..20] && f[23] == '-' && f[24..] == s[20..];
    assert s == s[..8] + s[8..12] + s[12..16] + s[16..20] + s[20..];
  }

  // ---- The spellings of a UUID ----

  function Lowered(s: string): string {
    seq(|s|, i requires 0 <= i < |s| => Lower(s[i]))
  }

  /** The four spellings of a UUID, in either case: canonical, as a URN, between two characters, and bare. */
  predicate Spells(t: string, d: Digits) {
    || Lowered(t) == Format(d)
    || Lowered(t) == "urn:uuid:" + Format(d)
    || (|t| == 38 && Lowered(t[1..37]) == Format(d))
    || Lowered(t) == Show(d)
  }

  lemma HexLower(c: char, k: nat)
    requires k < 16
    ensures HexDigit(c) == Some(k) <==> Lower(c) == HexChar(k)
  {
  }

  lemma {:induction false} DigitsShown(s: string, ds: seq<nat>)
    requires AllDigits(s) == Some(ds) && forall i | 0 <= i < |ds| :: ds[i] < 16
    ensures Lowered(s) == Show(ds)
  {
    if s != "" {
      assert ds[1..] == AllDigits(s[1..]).value;
      DigitsShown(s[1..], ds[1..]);
      HexLower(s[0], ds[0]);
      assert Lowered(s) == [Lower(s[0])] + Lowered(s[1..]);
      assert Show(ds) == [HexChar(ds[0])] + Show(ds[1..]);
    }
  }

  lemma {:induction false} ShownDigits(s: string, ds: seq<nat>)
    requires (forall i | 0 <= i < |ds| :: ds[i] < 16) && Lowered(s) == Show(ds)
    ensures AllDigits(s) == Some(ds)
  {
    assert |s| == |ds|;
    if s != "" {
      assert Lowered(s)[0] == Lower(s[0]) && Lowered(s)[1..] == Lowered(s[1..]);
      assert Show(ds)[0] == HexChar(ds[0]) && Show(ds)[1..] == Show(ds[1..]);
      HexLower(s[0], ds[0]);
      ShownDigits(s[1..], ds[1..]);
      assert ds == [ds[0]] + ds[1..];
    }
  }

  lemma AllDigitsIff(s: string, ds: seq<nat>)
    requires forall i | 0 <= i < |ds| :: ds[i] < 16
    ensures AllDigits(s) == Some(ds) <==> Lowered(s) == Show(ds)
  {
    if AllDigits(s) == Some(ds) {
      DigitsShown(s, ds);
    }
    if Lowered(s) == Show(ds) {
      ShownDigits(s, ds);
    }
  }

  lemma {:induction false} AllDigitsSmall(s: string)
    ensures AllDigits(s).Some? ==> |AllDigits(s).value| == |s| && forall i | 0 <= i < |s| :: AllDigits(s).value[i] < 16
  {
    if s != "" {
      AllDigitsSmall(s[1..]);
    }
  }

  lemma HyphenIff(c: char)
    ensures Lower(c) == '-' <==> c == '-'
  {
  }

  /** Of the standard length: the hyphens in place and the digits around them. */
  lemma StandardIff(s: string, d: Digits)
    requires |s| == 36
    ensures Lowered(s) == Format(d) <==> HyphensRight(s) && AllDigits(Unhyphened(s)) == Some(d)
  {
    var f, w, u := Format(d), Show(d), Lowered(s);
    AllDigitsIff(Unhyphened(s), d);
    FormatParts(d);
    HyphenIff(s[8]);
    HyphenIff(s[13]);
    HyphenIff(s[18]);
    HyphenIff(s[23]);
    assert Lowered(Unhyphened(s)) == u[..8] + u[9..13] + u[14..18] + u[19..23] + u[24..];
    if u == f {
      assert u[8] == '-' && u[13] == '-' && u[18] == '-' && u[23] == '-';
    }
    if HyphensRight(s) && Lowered(Unhyphened(s)) == w {
      JoinParts(u, w);
    }
  }

  /** What stands where in the canonical spelling. */
  lemma FormatParts(d: Digits)
    ensures var s, f := Show(d), Format(d);
            && |f| == 36 && f[..8] == s[..8] && f[8] == '-' && f[9..13] == s[8..12] && f[13] == '-'
            && f[14..18] == s[12..16] && f[18] == '-' && f[19..23] == s[16..20] && f[23] == '-' && f[24..] == s[20..]
            && f[..8] + f[9..13] + f[14..18] + f[19..23] + f[24..] == s
  {
    var s := Show(d);
    assert s == s[..8] + s[8..12] + s[12..16] + s[16..20] + s[20..];
  }

  lemma JoinParts(u: string, w: string)
    requires |u| == 36 && |w| == 32 && u[8] == '-' && u[13] == '-' && u[18] == '-' && u[23] == '-'
    requires u[..8] + u[9..13] + u[14..18] + u[19..23] + u[24..] == w
    ensures u == w[..8] + "-" + w[8..12] + "-" + w[12..16] + "-" + w[16..20] + "-" + w[20..]
  {
    assert u[..8] == w[..8] && u[9..13] == w[8..12] && u[14..18] == w[12..16] && u[19..23] == w[16..20] && u[24..] == w[20..];
    assert u == u[..8] + [u[8]] + u[9..13] + [u[13]] + u[14..18] + [u[18]] + u[19..23] + [u[23]] + u[24..];
  }

  lemma UrnIff(s: string, d: Digits)
    requires |s| == 45
    ensures Lowered(s) == "urn:uuid:" + Format(d) <==> IsUrnPrefix(s[..9]) && Lowered(s[9..]) == Format(d)
  {
    assert Lowered(s) == Lowered(s[..9]) + Lowered(s[9..]);
    assert Lowered(s)[..9] == Lowered(s[..9]) && Lowered(s)[9..] == Lowered(s[9..]);
    assert ("urn:uuid:" + Format(d))[..9] == "urn:uuid:" && ("urn:uuid:" + Format(d))[9..] == Format(d);
    assert IsUrnPrefix(s[..9]) <==> Lowered(s[..9]) == "urn:uuid:";
  }

  /** Parsing accepts exactly the spellings, and gives the digits spelled. */
  lemma ParseIff(t: string, d: Digits)
    ensures ParseUuid(t) == Some(d) <==> Spells(t, d)
  {
    FormatParts(d);
    if |t| == 36 {
      StandardIff(t, d);
      AllDigitsSmall(Unhyphened(t));
    } else if |t| == 45 {
      UrnIff(t, d);
      StandardIff(t[9..], d);
      AllDigitsSmall(Unhyphened(t[9..]));
    } else if |t| == 38 {
      StandardIff(t[1..37], d);
      AllDigitsSmall(Unhyphened(t[1..37]));
    } else if |t| == 32 {
      AllDigitsIff(t, d);
      AllDigitsSmall(t);
    }
  }

  // ---- Tokens and page sizes ----

  datatype Token = Invalid | Start | After(id: string)

  function VersionOf(d: Digits): nat {
    d[12]
  }

  function DecodePageToken(token: string): Token {
    if token == "" then Start
    else
      match ParseUuid(token)
      case None => Invalid
      case Some(d) => if VersionOf(d) != 7 then Invalid else After(token)
  }

  function EncodePageToken(lastId: string): string {
    lastId
  }

  function ResolvePageSize(size: nat): nat {
    if size == 0 then DEFAULT_PAGE_SIZE else size
  }

  ghost predicate IsV7(id: string) {
    exists d: Digits :: Format(d) == id && VersionOf(d) == 7
  }

  /** A token that spells a version 7 UUID. */
  ghost predicate SpellsV7(token: string) {
    exists d: Digits :: Spells(token, d) && d[12] == 7
  }

  /** Every other token but the empty one is refused. */
  lemma TokenIff(token: string)
    ensures DecodePageToken(token) ==
            if token == "" then Start else if SpellsV7(token) then After(token) else Invalid
  {
    if ParseUuid(token).Some? {
      ParseIff(token, ParseUuid(token).value);
    }
    forall d: Digits | Spells(token, d)
      ensures ParseUuid(token) == Some(d)
    {
      ParseIff(token, d);
    }
  }

  /** Every token handed out for a version 7 UUID is accepted again. */
  lemma TokenAccepted(id: string)
    requires IsV7(id)
    ensures DecodePageToken(EncodePageToken(id)) == After(id) && id != ""
  {
    var d: Digits :| Format(d) == id && VersionOf(d) == 7;
    FormatParse(d);
  }

  // ---- Pages ----

  ghost predicate Listing(ids: seq<string>) {
    StrictlySorted(Before, ids)
  }

  /** The ids behind a token, in order: what the query selects before its limit. */
  function Behind(ids: seq<string>, after: Option<string>): seq<string> {
    if ids == [] then []
    else
      var rest := Behind(ids[..|ids| - 1], after);
      if after.None? || Before(after.value, ids[|ids| - 1]) then rest + [ids[|ids| - 1]] else rest
  }

  function Take(ids: seq<string>, n: nat): seq<string> {
    if |ids| <= n then ids else ids[..n]
  }

  datatype Page = Page(items: seq<string>, next: Option<string>)

  /** What a page should be: the next `size` ids, and a token if and only if more follow. */
  function PageOf(ids: seq<string>, after: Option<string>, size: nat): Page
    requires size > 0
  {
    var rest := Behind(ids, after);
    if |rest| <= size then Page(rest, None) else Page(rest[..size], Some(rest[size - 1]))
  }

  /** The token as the query's UUID parameter, in canonical spelling. The database knows neither the
      URN form nor other brackets than braces. */
  function Cast(token: string): Option<string> {
    match ParseUuid(token)
    case None => None
    case Some(d) =>
      if |token| == 45 || (|token| == 38 && !(token[0] == '{' && token[37] == '}')) then None else Some(Format(d))
  }

  /** The spellings the database refuses: a URN, and brackets other than braces. */
  predicate Foreign(token: string) {
    |token| == 45 || (|token| == 38 && !(token[0] == '{' && token[37] == '}'))
  }

  lemma CastIff(token: string)
    ensures forall d: Digits | Spells(token, d) :: Cast(token) == if Foreign(token) then None else Some(Format(d))
  {
    forall d: Digits | Spells(token, d)
      ensures ParseUuid(token) == Some(d)
    {
      ParseIff(token, d);
    }
  }

  lemma GoesOn(token: string)
    requires token != "" && DecodePageToken(token).After? && Cast(token).Some?
    ensures SpellsV7(token) && !Foreign(token)
  {
    TokenIff(token);
  }

  lemma CastId(id: string)
    requires IsV7(id)
    ensures Cast(id) == Some(id)
  {
    var d: Digits :| Format(d) == id && VersionOf(d) == 7;
    FormatParse(d);
  }

  datatype ListResult =
    | InvalidPageSize
    | InvalidPageToken
    | QueryFailed
    | Listed(items: seq<string>, nextToken: string)

  function AfterOf(token: string): Option<string> {
    if token == "" then None else Cast(token)
  }

  predicate Leads(next: string, after: Option<string>) {
    next != "" && DecodePageToken(next).After? && AfterOf(next) == after
  }

  /** The query and the cut: one row of look-ahead tells whether there is a next page. */
  method Fetch(ids: seq<string>, after: Option<string>, size: nat) returns (rows: seq<string>, next: string)
    requires size > 0
    ensures var page := PageOf(ids, after, size);
            && rows == page.items && next == (if page.next.Some? then page.next.value else "")
            && (page.next.Some? && IsV7(page.next.value) ==> Leads(next, page.next))
  {
    rows, next := Take(Behind(ids, after), size + 1), "";
    if |rows| > size {
      rows := rows[..size];
      next := EncodePageToken(rows[|rows| - 1]);
      if IsV7(next) {
        TokenAccepted(next);
        CastId(next);
      }
    }
  }

  /** The list endpoint: one more row than asked for is fetched and cut off again. */
  method List(ids: seq<string>, pageSize: nat, token: string) returns (r: ListResult)
    ensures r.InvalidPageSize? <==> pageSize > 100
    ensures r.InvalidPageToken? <==> pageSize <= 100 && token != "" && !SpellsV7(token)
    // the database does not know all spellings the token check accepts
    ensures r.QueryFailed? <==> pageSize <= 100 && SpellsV7(token) && Foreign(token)
    ensures r.Listed? && token == "" ==> AfterOf(token) == None
    ensures r.Listed? ==> forall d: Digits | Spells(token, d) :: AfterOf(token) == Some(Format(d))
    ensures r.Listed? ==>
              var page := PageOf(ids, AfterOf(token), if pageSize == 0 then 10 else pageSize);
              && r.items == page.items
              && r.nextToken == (if page.next.Some? then page.next.value else "")
              && (page.next.Some? && IsV7(page.next.value) ==> Leads(r.nextToken, page.next))
    ensures r.Listed? ==>
              var size := if pageSize == 0 then 10 else pageSize;
              && |r.items| <= size && (r.nextToken != "" ==> |r.items| == size && r.nextToken == r.items[size - 1])
  {
    TokenIff(token);
    CastIff(token);
    if pageSize > MAX_PAGE_SIZE {
      return InvalidPageSize;
    }
    var size := ResolvePageSize(pageSize);
    var decoded := DecodePageToken(token);
    if decoded.Invalid? {
      return InvalidPageToken;
    }
    var after := None;
    if decoded.After? {
      after := Cast(decoded.id);
      if after.None? {
        return QueryFailed;
      }
    }
    var rows, next := Fetch(ids, after, size);
    return Listed(rows, next);
  }

  lemma {:induction false} BehindMembers(ids: seq<string>, after: Option<string>, x: string)
    ensures x in Behind(ids, after) <==> x in ids && (after.None? || Before(after.value, x))
  {
    if ids != [] {
      BehindMembers(ids[..|ids| - 1], after, x);
      assert ids == ids[..|ids| - 1] + [ids[|ids| - 1]];
    }
  }

  // ---- Walking a list that does not change ----

  lemma {:induction false} BehindSorted(ids: seq<string>, after: Option<string>)
    requires Listing(ids)
    ensures Listing(Behind(ids, after))
  {
    if ids != [] {
      var n := |ids| - 1;
      BehindSorted(ids[..n], after);
      forall i | 0 <= i < |Behind(ids[..n], after)|
        ensures Before(Behind(ids[..n], after)[i], ids[n])
      {
        var x := Behind(ids[..n], after)[i];
        BehindMembers(ids[..n], after, x);
        var k :| 0 <= k < n && ids[k] == x;
      }
    }
  }

  /** Behind a page's token lies what the page left over. */
  lemma BehindPage(ids: seq<string>, after: Option<string>, size: nat)
    requires Listing(ids) && size > 0 && PageOf(ids, after, size).next.Some?
    ensures Behind(ids, PageOf(ids, after, size).next) == Behind(ids, after)[size..]
  {
    var rest, next := Behind(ids, after), PageOf(ids, after, size).next;
    BehindSorted(ids, after);
    BehindSorted(ids, next);
    BeforeWeak();
    forall x
      ensures x in Behind(ids, next) <==> x in rest[size..]
    {
      BehindMembers(ids, next, x);
      BehindMembers(ids, after, x);
      BehindMembers(ids, after, next.value);
      assert rest[size - 1] in rest;
      if x in rest[size..] {
        var k :| size <= k < |rest| && rest[k] == x;
        assert Before(rest[size - 1], rest[k]);
      }
      if x in ids && Before(next.value, x) {
        assert x in rest;
        var k :| 0 <= k < |rest| && rest[k] == x;
        BeforeTotal(rest[k], rest[size - 1]);
        assert k >= size;
        assert rest[size..][k - size] == x;
      }
    }
    SortedUnique(Before, Behind(ids, next), rest[size..]);
  }

  lemma {:induction false} BehindStart(ids: seq<string>)
    ensures Behind(ids, None) == ids
  {
    if ids != [] {
      BehindStart(ids[..|ids| - 1]);
      assert ids == ids[..|ids| - 1] + [ids[|ids| - 1]];
    }
  }

  /** What is left of a walk when `all` has been listed: a token to go on with, or nothing. */
  ghost predicate Remains(ids: seq<string>, all: seq<string>, token: string, done: bool) {
    if done then all == ids
    else (token == "" || (DecodePageToken(token).After? && Cast(token).Some?)) && all + Behind(ids, AfterOf(token)) == ids
  }

  lemma NextListed(ids: seq<string>, after: Option<string>, size: nat)
    requires size > 0 && PageOf(ids, after, size).next.Some?
    ensures PageOf(ids, after, size).next.value in ids
  {
    BehindMembers(ids, after, PageOf(ids, after, size).next.value);
  }

  /** A page and what its token leads to make up what was left. */
  lemma PageSplits(ids: seq<string>, all: seq<string>, after: Option<string>, size: nat)
    requires Listing(ids) && size > 0 && all + Behind(ids, after) == ids && PageOf(ids, after, size).next.Some?
    ensures var page := PageOf(ids, after, size); all + page.items + Behind(ids, page.next) == ids
  {
    var page := PageOf(ids, after, size);
    BehindPage(ids, after, size);
    assert page.items + Behind(ids, page.next) == Behind(ids, after);
    assert all + (page.items + Behind(ids, page.next)) == (all + page.items) + Behind(ids, page.next);
  }

  method NextPage(ids: seq<string>, pageSize: nat, token: string, ghost all: seq<string>) returns (items: seq<string>, next: string)
    requires Listing(ids) && pageSize <= MAX_PAGE_SIZE && forall id | id in ids :: IsV7(id)
    requires Remains(ids, all, token, false)
    ensures Remains(ids, all + items, next, next == "")
    ensures next != "" ==> |items| > 0
  {
    if token != "" {
      GoesOn(token);
    }
    var r := List(ids, pageSize, token);
    items, next := r.items, r.nextToken;
    ghost var size, after := ResolvePageSize(pageSize), AfterOf(token);
    if PageOf(ids, after, size).next.Some? {
      NextListed(ids, after, size);
      PageSplits(ids, all, after, size);
    }
  }

  lemma RemainsBounded(ids: seq<string>, all: seq<string>, token: string, done: bool)
    requires Remains(ids, all, token, done)
    ensures |all| <= |ids|
  {
  }

  /** Asking for page after page until no token comes back ends, and gives the whole list in order,
      with no gap and no repeat, for every allowed page size. */
  method WalkPages(ids: seq<string>, pageSize: nat) returns (all: seq<string>)
    requires Listing(ids) && pageSize <= MAX_PAGE_SIZE && forall id | id in ids :: IsV7(id)
    ensures all == ids
  {
    BehindStart(ids);
    all := [];
    var token, done := "", false;
    while !done
      invariant Remains(ids, all, token, done)
      decreases !done, |ids| - |all|
    {
      RemainsBounded(ids, all, token, done);
      var items;
      items, token := NextPage(ids, pageSize, token, all);
      all, done := all + items, token == "";
      RemainsBounded(ids, all, token, done);
    }
  }

  // ---- Walking a list that changes ----

  /** The pages read from a sequence of snapshots, one request each, until no token comes back. */
  function Walk(snapshots: seq<seq<string>>, after: Option<string>, size: nat): seq<string>
    requires size > 0
  {
    if snapshots == [] then []
    else
      var page := PageOf(snapshots[0], after, size);
      page.items + if page.next.None? then [] else Walk(snapshots[1..], page.next, size)
  }

  predicate Ends(snapshots: seq<seq<string>>, after: Option<string>, size: nat)
    requires size > 0
  {
    snapshots != [] &&
    var page := PageOf(snapshots[0], after, size);
    page.next.None? || Ends(snapshots[1..], page.next, size)
  }

  predicate IsBehind(after: Option<string>, x: string) {
    after.None? || Before(after.value, x)
  }

  lemma SortedConcat(a: seq<string>, b: seq<string>)
    requires Listing(a) && Listing(b) && a != [] && forall x | x in b :: Before(a[|a| - 1], x)
    ensures Listing(a + b)
  {
    forall i, j | 0 <= i < j < |a + b|
      ensures Before((a + b)[i], (a + b)[j])
    {
      if i < |a| <= j {
        assert b[j - |a|] in b;
        if i < |a| - 1 {
          BeforeTransitive(a[i], a[|a| - 1], b[j - |a|]);
        }
      }
    }
  }

  /** While ids come and go, a walk lists nothing twice and keeps the order. */
  lemma {:induction false} WalkSorted(snapshots: seq<seq<string>>, after: Option<string>, size: nat)
    requires size > 0 && forall k | 0 <= k < |snapshots| :: Listing(snapshots[k])
    ensures Listing(Walk(snapshots, after, size))
    ensures forall x | x in Walk(snapshots, after, size) :: IsBehind(after, x)
    decreases |snapshots|
  {
    if snapshots != [] {
      var page, rest := PageOf(snapshots[0], after, size), Behind(snapshots[0], after);
      BehindSorted(snapshots[0], after);
      forall x | x in rest
        ensures IsBehind(after, x)
      {
        BehindMembers(snapshots[0], after, x);
      }
      if page.next.Some? {
        WalkSorted(snapshots[1..], page.next, size);
        var more := Walk(snapshots[1..], page.next, size);
        SortedConcat(page.items, more);
        assert rest[size - 1] in rest;
        forall x | x in more
          ensures IsBehind(after, x)
        {
          if after.Some? {
            BeforeTransitive(after.value, page.next.value, x);
          }
        }
      }
    }
  }

  /** It lists only ids that were there when their page was read. */
  lemma {:induction false} WalkReal(snapshots: seq<seq<string>>, after: Option<string>, size: nat, x: string)
    requires size > 0 && x in Walk(snapshots, after, size)
    ensures exists k | 0 <= k < |snapshots| :: x in snapshots[k]
    decreases |snapshots|
  {
    var page := PageOf(snapshots[0], after, size);
    if x in page.items {
      BehindMembers(snapshots[0], after, x);
      assert x in snapshots[0];
    } else {
      WalkReal(snapshots[1..], page.next, size, x);
      var k :| 0 <= k < |snapshots[1..]| && x in snapshots[1..][k];
      assert x in snapshots[k + 1];
    }
  }

  /** And once it ends it has listed every id that was there all the time. */
  lemma {:induction false} WalkComplete(snapshots: seq<seq<string>>, after: Option<string>, size: nat, x: string)
    requires size > 0 && Ends(snapshots, after, size)
    requires forall k | 0 <= k < |snapshots| :: Listing(snapshots[k]) && x in snapshots[k]
    requires IsBehind(after, x)
    ensures x in Walk(snapshots, after, size)
    decreases |snapshots|
  {
    var page, rest := PageOf(snapshots[0], after, size), Behind(snapshots[0], after);
    BehindMembers(snapshots[0], after, x);
    assert x in snapshots[0];
    if page.next.Some? && x !in page.items {
      BehindSorted(snapshots[0], after);
      var k :| 0 <= k < |rest| && rest[k] == x;
      assert page.items == rest[..size] && x !in rest[..size];
      assert Before(rest[size - 1], rest[k]);
      WalkComplete(snapshots[1..], page.next, size, x);
    }
  }
}
