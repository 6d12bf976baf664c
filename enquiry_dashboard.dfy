/** The admin enquiry dashboard (`admindashboard.jsx`): the search filter and the
    newest-first order of the listed enquiries, pagination, row selection, single and
    bulk delete, and the CSV export. */
module EnquiryDashboard {
  import opened Common
  import opened Strings
  import opened Tables
  import opened Sorting
  import opened Models
  import AdminRouter

  // ---------------------------------------------------------------- search and order

  /** The search test for a non-empty query: a case-insensitive substring of the name,
      e-mail or message, or a case-sensitive substring of the phone number. */
  function Matches(q: string): Enquiry -> bool {
    (e: Enquiry) =>
      || Contains(ToLower(e.name), ToLower(q))
      || Contains(ToLower(e.email), ToLower(q))
      || Contains(e.phone, q)
      || Contains(ToLower(e.message), ToLower(q))
  }

  /** The enquiries the table lists for query `q`: all of them for the empty query, the
      matching ones otherwise, newest `created_at` first. */
  function Visible(enquiries: seq<Enquiry>, q: string): (r: seq<Enquiry>)
    ensures forall e :: e in r <==> e in enquiries && (q == "" || Matches(q)(e))
    ensures q == "" ==> multiset(r) == multiset(enquiries)
    ensures forall e :: multiset(r)[e] == if q == "" || Matches(q)(e) then multiset(enquiries)[e] else 0
    ensures forall i, j :: 0 <= i < j < |r| ==> r[i].createdAt >= r[j].createdAt
  {
    var kept := if q == "" then enquiries else Where(enquiries, Matches(q));
    WhereCount(enquiries, Matches(q));
    assert IsTotalPreorder(AdminRouter.EnquiryNewestFirst);
    SortBySorted(kept, AdminRouter.EnquiryNewestFirst);
    forall e ensures e in SortBy(kept, AdminRouter.EnquiryNewestFirst) <==> e in kept {
      SortByMembers(kept, AdminRouter.EnquiryNewestFirst, e);
    }
    SortBy(kept, AdminRouter.EnquiryNewestFirst)
  }

  /** With no query, sorting again the list the server already sorted newest first
      leaves it as the server sent it. */
  lemma ServerOrderKept(enquiries: seq<Enquiry>)
    ensures Visible(AdminRouter.GetEnquiries(enquiries), "") == AdminRouter.GetEnquiries(enquiries)
  {
    SortByIdempotent(enquiries, AdminRouter.EnquiryNewestFirst);
  }

  // ---------------------------------------------------------------- pagination

  const RowsPerPage := 10

  /** `Math.ceil(n / rowsPerPage)`. */
  function TotalPages(n: nat): (r: nat)
    ensures r * RowsPerPage >= n
    ensures r > 0 ==> (r - 1) * RowsPerPage < n
    ensures n == 0 <==> r == 0
  {
    (n + RowsPerPage - 1) / RowsPerPage
  }

  /** The rows of page `page` (counted from 1). */
  function PageRows<T>(rows: seq<T>, page: nat): (r: seq<T>)
    requires page >= 1
    ensures |r| <= RowsPerPage
    ensures |r| == 0 || (page - 1) * RowsPerPage + |r| <= |rows|
    ensures forall k :: 0 <= k < |r| ==> r[k] == rows[(page - 1) * RowsPerPage + k]
    ensures page <= TotalPages(|rows|) ==> |r| >= 1
    ensures page > TotalPages(|rows|) ==> r == []
  {
    Slice(rows, (page - 1) * RowsPerPage, (page - 1) * RowsPerPage + RowsPerPage)
  }

  /** Every row is on exactly one page within the page count: row `i` is row `i % 10` of
      page `i / 10 + 1`. */
  lemma RowOnItsPage<T>(rows: seq<T>, i: nat)
    requires i < |rows|
    ensures var p := i / RowsPerPage + 1;
            && p <= TotalPages(|rows|)
            && i % RowsPerPage < |PageRows(rows, p)|
            && PageRows(rows, p)[i % RowsPerPage] == rows[i]
  {
    var p := i / RowsPerPage + 1;
    assert (p - 1) * RowsPerPage + i % RowsPerPage == i;
  }

  // ---------------------------------------------------------------- selection

  function OtherThan(id: int): int -> bool {
    x => x != id
  }

  /** `toggleSelect`: a selected id leaves the selection, any other id is added at the end. */
  function ToggleSelect(selected: seq<int>, id: int): (r: seq<int>)
    ensures forall x :: x in r <==> if x == id then id !in selected else x in selected
  {
    if id in selected then Where(selected, OtherThan(id)) else selected + [id]
  }

  lemma {:induction false} WhereDistinct(s: seq<int>, p: int -> bool)
    requires KeysDistinct(s, (x: int) => x)
    ensures KeysDistinct(Where(s, p), (x: int) => x)
    decreases |s|
  {
    if s != [] {
      WhereDistinct(s[1..], p);
      if p(s[0]) {
        var w := Where(s[1..], p);
        forall k | 0 <= k < |w| ensures w[k] != s[0] {
          assert w[k] in s[1..];
        }
        assert ([s[0]] + w)[1..] == w;
      }
    }
  }

  /** Toggling keeps the selection free of duplicates. Toggling an unselected id twice
      gives back the very same selection; toggling a selected id twice gives back the same
      set of ids, that id now last. */
  lemma ToggleTwice(selected: seq<int>, id: int)
    requires KeysDistinct(selected, (x: int) => x)
    ensures KeysDistinct(ToggleSelect(selected, id), (x: int) => x)
    ensures forall x :: x in ToggleSelect(ToggleSelect(selected, id), id) <==> x in selected
    ensures id !in selected ==> ToggleSelect(ToggleSelect(selected, id), id) == selected
  {
    if id in selected {
      WhereDistinct(selected, OtherThan(id));
    } else {
      var t := selected + [id];
      assert t[|selected|] == id;
      forall i | 0 <= i < |selected| ensures t[i] != id {
        assert t[i] == selected[i];
      }
      WhereAppend(selected, [id], OtherThan(id));
      WhereAll(selected, OtherThan(id));
      WhereNone([id], OtherThan(id));
      assert Where(t, OtherThan(id)) == selected;
    }
  }

  function EnquiryId(e: Enquiry): int { e.id }

  /** `toggleSelectAll`: a selection as long as the page is cleared, any other becomes the
      ids of the page's rows. Only the lengths are compared. */
  function ToggleSelectAll(selected: seq<int>, page: seq<Enquiry>): (r: seq<int>)
    ensures |selected| == |page| ==> r == []
    ensures |selected| != |page| ==> |r| == |page| && forall k :: 0 <= k < |r| ==> r[k] == page[k].id
  {
    if |selected| == |page| then [] else Project(page, EnquiryId)
  }

  /** Pressing select-all twice on a non-empty page that is not fully selected selects
      the page and then clears it. */
  lemma SelectAllTwice(selected: seq<int>, page: seq<Enquiry>)
    requires |selected| != |page| && page != []
    ensures ToggleSelectAll(selected, page) == Project(page, EnquiryId)
    ensures ToggleSelectAll(ToggleSelectAll(selected, page), page) == []
  {
  }

  // ---------------------------------------------------------------- deletion

  function NotThis(id: int): Enquiry -> bool {
    (e: Enquiry) => e.id != id
  }

  function NotSelected(selected: seq<int>): Enquiry -> bool {
    (e: Enquiry) => e.id !in selected
  }

  /** With distinct ids, the local delete after a successful `DELETE` drops exactly the row
      the server dropped. */
  lemma LocalDeleteMatchesServer(enquiries: seq<Enquiry>, i: nat)
    requires i < |enquiries| && KeysDistinct(enquiries, EnquiryKey)
    ensures Where(enquiries, NotThis(enquiries[i].id)) == RemoveAt(enquiries, i)
  {
    forall j | 0 <= j < |enquiries| && j != i ensures NotThis(enquiries[i].id)(enquiries[j]) {
      assert EnquiryKey(enquiries[j]) != EnquiryKey(enquiries[i]);
    }
    WhereDropsOne(enquiries, NotThis(enquiries[i].id), i);
  }

  /** The awaited deletes of `handleBulkDelete`, one id at a time in selection order;
      `succeeds` says which requests the server answers without error. The first failure
      ends the loop. Returns the ids requested. */
  method DeleteEach(ids: seq<int>, succeeds: int -> bool) returns (sent: seq<int>)
    ensures |sent| <= |ids| && sent == ids[..|sent|]
    ensures forall k :: 0 <= k < |sent| - 1 ==> succeeds(sent[k])
    ensures (forall k :: 0 <= k < |ids| ==> succeeds(ids[k])) <==>
            sent == ids && forall k :: 0 <= k < |sent| ==> succeeds(sent[k])
    ensures (exists k :: 0 <= k < |ids| && !succeeds(ids[k])) ==>
            |sent| >= 1 && !succeeds(sent[|sent| - 1])
  {
    sent := [];
    var k := 0;
    while k < |ids|
      invariant 0 <= k <= |ids| && sent == ids[..k]
      invariant forall j :: 0 <= j < k ==> succeeds(ids[j])
    {
      sent := sent + [ids[k]];
      if !succeeds(ids[k]) {
        return;
      }
      k := k + 1;
    }
  }

  /** The dashboard's state: the fetched enquiries, the listed ones, the query, the
      selected ids, the page and the enquiry open in the details view. */
  class Dashboard {
    var enquiries: seq<Enquiry>
    var filtered: seq<Enquiry>
    var searchQuery: string
    var selected: seq<int>
    var page: nat
    var showDetails: Option<Enquiry>

    predicate Listed()
      reads this
    {
      filtered == Visible(enquiries, searchQuery)
    }

    constructor (fetched: seq<Enquiry>)
      ensures enquiries == fetched && filtered == fetched && searchQuery == ""
      ensures selected == [] && page == 1 && showDetails == None
    {
      enquiries := fetched;
      filtered := fetched;
      searchQuery := "";
      selected := [];
      page := 1;
      showDetails := None;
    }

    /** The filter-and-sort effect: a copy of the enquiries is filtered by the query and
        sorted in place newest first; the fetched list itself is left as it is. */
    method Refilter()
      modifies this
      ensures Listed()
      ensures enquiries == old(enquiries) && searchQuery == old(searchQuery) && selected == old(selected)
      ensures page == old(page) && showDetails == old(showDetails)
    {
      var copy := enquiries;
      if searchQuery != "" {
        copy := Where(copy, Matches(searchQuery));
      }
      copy := SortBy(copy, AdminRouter.EnquiryNewestFirst);
      filtered := copy;
    }

    /** Typing a query; the effect lists the enquiries again. The page is kept. */
    method Search(q: string)
      modifies this
      ensures searchQuery == q && Listed()
      ensures enquiries == old(enquiries) && selected == old(selected)
      ensures page == old(page) && showDetails == old(showDetails)
    {
      searchQuery := q;
      Refilter();
    }

    /** The rows on screen. */
    function Shown(): (r: seq<Enquiry>)
      reads this
      requires page >= 1
      ensures |r| <= RowsPerPage
      ensures r == PageRows(filtered, page)
    {
      PageRows(filtered, page)
    }

    /** The previous-page button, disabled on page 1. */
    method PreviousPage()
      requires page >= 1
      modifies this
      ensures page == if old(page) == 1 then 1 else old(page) - 1
      ensures enquiries == old(enquiries) && filtered == old(filtered) && searchQuery == old(searchQuery)
      ensures selected == old(selected) && showDetails == old(showDetails)
    {
      if page != 1 {
        page := page - 1;
      }
    }

    /** The next-page button, disabled on the last page. With no rows there are 0 pages,
        so the button stays enabled and leads to empty pages. */
    method NextPage()
      modifies this
      ensures page == if old(page) == TotalPages(|old(filtered)|) then old(page) else old(page) + 1
      ensures enquiries == old(enquiries) && filtered == old(filtered) && searchQuery == old(searchQuery)
      ensures selected == old(selected) && showDetails == old(showDetails)
    {
      if page != TotalPages(|filtered|) {
        page := page + 1;
      }
    }

    method Toggle(id: int)
      modifies this
      ensures selected == ToggleSelect(old(selected), id)
      ensures enquiries == old(enquiries) && filtered == old(filtered) && searchQuery == old(searchQuery)
      ensures page == old(page) && showDetails == old(showDetails)
    {
      selected := ToggleSelect(selected, id);
    }

    method ToggleAll()
      requires page >= 1
      modifies this
      ensures selected == ToggleSelectAll(old(selected), PageRows(old(filtered), old(page)))
      ensures enquiries == old(enquiries) && filtered == old(filtered) && searchQuery == old(searchQuery)
      ensures page == old(page) && showDetails == old(showDetails)
    {
      selected := ToggleSelectAll(selected, Shown());
    }

    /** `handleDelete`. Without confirmation nothing is sent. A failed request rejects the
        handler before any local change; a successful one drops the enquiry locally, closes
        the details view and lists again. */
    method HandleDelete(id: int, confirmed: bool, ok: bool) returns (sent: Option<int>)
      modifies this
      ensures sent == if confirmed then Some(id) else None
      ensures !(confirmed && ok) ==>
        && enquiries == old(enquiries) && filtered == old(filtered) && showDetails == old(showDetails)
        && searchQuery == old(searchQuery) && selected == old(selected) && page == old(page)
      ensures confirmed && ok ==>
        && enquiries == Where(old(enquiries), NotThis(id)) && showDetails == None && Listed()
        && searchQuery == old(searchQuery) && selected == old(selected) && page == old(page)
    {
      if !confirmed {
        return None;
      }
      sent := Some(id);
      if !ok {
        return;
      }
      enquiries := Where(enquiries, NotThis(id));
      showDetails := None;
      Refilter();
    }

    /** `handleBulkDelete`. The selected ids are deleted one at a time; only if every
        request succeeds are they dropped locally and the selection cleared. A failure
        part way leaves the local state as it was, although the server has already
        deleted the ids before the failing one. */
    method HandleBulkDelete(confirmed: bool, succeeds: int -> bool) returns (sent: seq<int>)
      modifies this
      ensures !confirmed ==> sent == []
      ensures confirmed ==> |sent| <= |old(selected)| && sent == old(selected)[..|sent|]
      ensures confirmed ==> forall k :: 0 <= k < |sent| - 1 ==> succeeds(sent[k])
      ensures var allOk := forall k :: 0 <= k < |old(selected)| ==> succeeds(old(selected)[k]);
        if confirmed && allOk then
          && sent == old(selected)
          && enquiries == Where(old(enquiries), NotSelected(old(selected))) && selected == [] && Listed()
          && searchQuery == old(searchQuery) && page == old(page) && showDetails == old(showDetails)
        else
          && (confirmed ==> |sent| >= 1 && !succeeds(sent[|sent| - 1]))
          && enquiries == old(enquiries) && filtered == old(filtered) && selected == old(selected)
          && searchQuery == old(searchQuery) && page == old(page) && showDetails == old(showDetails)
    {
      if !confirmed {
        return [];
      }
      sent := DeleteEach(selected, succeeds);
      if sent != selected || (sent != [] && !succeeds(sent[|sent| - 1])) {
        return;
      }
      enquiries := Where(enquiries, NotSelected(selected));
      selected := [];
      Refilter();
    }
  }

  /** After a bulk delete the list holds exactly the enquiries whose id was not selected. */
  lemma BulkDeleteDropsSelected(enquiries: seq<Enquiry>, selected: seq<int>)
    ensures forall e :: e in Where(enquiries, NotSelected(selected)) <==> e in enquiries && e.id !in selected
  {
  }

  // ---------------------------------------------------------------- CSV export

  const CsvColumns := ["Date", "Name", "Phone", "Email", "Message"]

  /** `value.replaceAll('"', '""')`. */
  function DoubleQuotes(s: string): (r: string)
    ensures |r| >= |s|
    ensures '"' in s ==> |r| > |s|
  {
    if s == [] then ""
    else (if s[0] == '"' then "\"\"" else [s[0]]) + DoubleQuotes(s[1..])
  }

  /** The contents of a quoted field as an RFC 4180 reader takes it: `""` stands for one
      quote, and a lone quote inside is malformed. */
  function UnescapeInner(s: string): (r: Option<string>)
    ensures r.Some? ==> |r.value| <= |s|
    ensures r.Some? && '"' in s ==> |r.value| < |s|
  {
    if s == [] then Some("")
    else if s[0] != '"' then
      match UnescapeInner(s[1..])
      case None => None
      case Some(t) => Some([s[0]] + t)
    else if |s| >= 2 && s[1] == '"' then
      match UnescapeInner(s[2..])
      case None => None
      case Some(t) => Some("\"" + t)
    else None
  }

  /** Reads back a field written between quotes (section 2 of RFC 4180). */
  function UnquoteField(f: string): Option<string> {
    if |f| >= 2 && f[0] == '"' && f[|f| - 1] == '"' then UnescapeInner(f[1..|f| - 1]) else None
  }

  /** The message column as the export writes it: wrapped in quotes, inner quotes kept. */
  function QuoteAsWritten(m: string): string { "\"" + m + "\"" }

  /** The message column with inner quotes doubled. */
  function QuoteField(m: string): string { "\"" + DoubleQuotes(m) + "\"" }

  lemma {:induction false} UnescapeDoubled(s: string)
    ensures UnescapeInner(DoubleQuotes(s)) == Some(s)
    decreases |s|
  {
    if s != [] {
      UnescapeDoubled(s[1..]);
      var d := DoubleQuotes(s[1..]);
      if s[0] == '"' {
        var q := "\"\"" + d;
        assert DoubleQuotes(s) == q;
        assert q[0] == '"' && q[1] == '"' && q[2..] == d;
        assert UnescapeInner(q) == Some("\"" + s[1..]);
        assert "\"" + s[1..] == s;
      } else {
        var q := [s[0]] + d;
        assert DoubleQuotes(s) == q;
        assert q[0] == s[0] && q[1..] == d;
        assert UnescapeInner(q) == Some([s[0]] + s[1..]);
        assert [s[0]] + s[1..] == s;
      }
    }
  }

  /** The corrected message field reads back as the message. */
  lemma QuoteFieldRoundTrip(m: string)
    ensures UnquoteField(QuoteField(m)) == Some(m)
  {
    var f := QuoteField(m);
    assert f[1..|f| - 1] == DoubleQuotes(m);
    UnescapeDoubled(m);
  }

  /** The message field as written does not read back as the message once the message
      holds a quote character. */
  lemma QuoteAsWrittenLosesQuotes(m: string)
    requires '"' in m
    ensures UnquoteField(QuoteAsWritten(m)) != Some(m)
  {
    var f := QuoteAsWritten(m);
    assert f[1..|f| - 1] == m;
  }

  /** The message `5" width`, for instance, reads back as nothing at all: the quote after
      the 5 stands alone. */
  lemma QuoteAsWrittenExample()
    ensures UnquoteField(QuoteAsWritten("5\" width")) == None
  {
    var f := QuoteAsWritten("5\" width");
    assert f[1..|f| - 1] == "5\" width";
    assert "5\" width"[1..] == "\" width";
    assert "\" width"[1] == ' ';
  }

  /** One row of the export as written: the date rendered by `date`, name, phone, e-mail
      and the quoted message, joined by commas. */
  function CsvRowAsWritten(date: Timestamp -> string): Enquiry -> string {
    (e: Enquiry) => Join([date(e.createdAt), e.name, e.phone, e.email, QuoteAsWritten(e.message)], ",")
  }

  function CsvRow(date: Timestamp -> string): Enquiry -> string {
    (e: Enquiry) => Join([date(e.createdAt), e.name, e.phone, e.email, QuoteField(e.message)], ",")
  }

  /** `exportToCSV` as written. */
  function ExportCsvAsWritten(rows: seq<Enquiry>, date: Timestamp -> string): string {
    Join([Join(CsvColumns, ",")] + Project(rows, CsvRowAsWritten(date)), "\n")
  }

  /** The export with the message quoted per RFC 4180. */
  function ExportCsv(rows: seq<Enquiry>, date: Timestamp -> string): string {
    Join([Join(CsvColumns, ",")] + Project(rows, CsvRow(date)), "\n")
  }

  lemma {:induction false} JoinFree(parts: seq<string>, sep: string, c: char)
    requires forall k :: 0 <= k < |parts| ==> c !in parts[k]
    requires c !in sep
    ensures c !in Join(parts, sep)
    decreases |parts|
  {
    if |parts| > 1 {
      JoinFree(parts[1..], sep, c);
    }
  }

  lemma {:induction false} DoubleQuotesFree(s: string, c: char)
    requires c != '"' && c !in s
    ensures c !in DoubleQuotes(s)
    decreases |s|
  {
    if s != [] {
      DoubleQuotesFree(s[1..], c);
    }
  }

  /** No field of the enquiry, nor its rendered date, holds a line break. */
  predicate SingleLine(e: Enquiry, date: Timestamp -> string) {
    '\n' !in date(e.createdAt) && '\n' !in e.name && '\n' !in e.phone && '\n' !in e.email
    && '\n' !in e.message
  }

  /** A row of single-line fields is a single line. */
  lemma RowSingleLine(e: Enquiry, date: Timestamp -> string)
    requires SingleLine(e, date)
    ensures '\n' !in CsvRow(date)(e)
  {
    DoubleQuotesFree(e.message, '\n');
    JoinFree([date(e.createdAt), e.name, e.phone, e.email, QuoteField(e.message)], ",", '\n');
  }

  /** When no field holds a line break, the export's lines are the header and one
      line per listed enquiry, in list order. */
  lemma ExportLines(rows: seq<Enquiry>, date: Timestamp -> string)
    requires forall k :: 0 <= k < |rows| ==> SingleLine(rows[k], date)
    ensures var lines := Split(ExportCsv(rows, date), '\n');
            && |lines| == |rows| + 1
            && lines[0] == Join(CsvColumns, ",")
            && forall k :: 0 <= k < |rows| ==> lines[k + 1] == CsvRow(date)(rows[k])
  {
    var parts := [Join(CsvColumns, ",")] + Project(rows, CsvRow(date));
    JoinFree(CsvColumns, ",", '\n');
    forall k | 1 <= k < |parts| ensures '\n' !in parts[k] {
      RowSingleLine(rows[k - 1], date);
    }
    SplitJoin(parts, '\n');
  }

  /** Without a quote in the text, doubling quotes changes nothing. */
  lemma {:induction false} DoubleQuotesNoQuote(s: string)
    requires '"' !in s
    ensures DoubleQuotes(s) == s
    decreases |s|
  {
    if s != [] {
      DoubleQuotesNoQuote(s[1..]);
      assert [s[0]] + s[1..] == s;
    }
  }

  /** Joining pieces that are each at least as long gives a text at least as long. */
  lemma {:induction false} JoinNoShorter(a: seq<string>, b: seq<string>, sep: string)
    requires |a| == |b| && forall i :: 0 <= i < |a| ==> |a[i]| <= |b[i]|
    ensures |Join(a, sep)| <= |Join(b, sep)|
    decreases |a|
  {
    if |a| > 1 {
      JoinNoShorter(a[1..], b[1..], sep);
    }
  }

  /** ... and strictly longer when one piece is strictly longer. */
  lemma {:induction false} JoinLonger(a: seq<string>, b: seq<string>, sep: string, k: nat)
    requires |a| == |b| && k < |a| && forall i :: 0 <= i < |a| ==> |a[i]| <= |b[i]|
    requires |a[k]| < |b[k]|
    ensures |Join(a, sep)| < |Join(b, sep)|
    decreases |a|
  {
    if |a| > 1 {
      if k == 0 {
        JoinNoShorter(a[1..], b[1..], sep);
      } else {
        JoinLonger(a[1..], b[1..], sep, k - 1);
      }
    }
  }

  /** A row as written is never longer than the corrected row, and shorter exactly when
      the message holds a quote. */
  lemma RowAsWrittenLength(e: Enquiry, date: Timestamp -> string)
    ensures |CsvRowAsWritten(date)(e)| <= |CsvRow(date)(e)|
    ensures '"' in e.message ==> |CsvRowAsWritten(date)(e)| < |CsvRow(date)(e)|
    ensures '"' !in e.message ==> CsvRowAsWritten(date)(e) == CsvRow(date)(e)
  {
    var a := [date(e.createdAt), e.name, e.phone, e.email, QuoteAsWritten(e.message)];
    var b := [date(e.createdAt), e.name, e.phone, e.email, QuoteField(e.message)];
    JoinNoShorter(a, b, ",");
    if '"' in e.message {
      JoinLonger(a, b, ",", 4);
    } else {
      DoubleQuotesNoQuote(e.message);
    }
  }

  /** The export as written equals the corrected export exactly when no listed message
      holds a quote: the missing doubling is the only difference between the two. */
  lemma ExportAsWrittenAgrees(rows: seq<Enquiry>, date: Timestamp -> string)
    ensures ExportCsvAsWritten(rows, date) == ExportCsv(rows, date) <==>
            forall k :: 0 <= k < |rows| ==> '"' !in rows[k].message
  {
    var header := [Join(CsvColumns, ",")];
    var a := header + Project(rows, CsvRowAsWritten(date));
    var b := header + Project(rows, CsvRow(date));
    forall i | 0 <= i < |a| ensures |a[i]| <= |b[i]| {
      if i > 0 {
        RowAsWrittenLength(rows[i - 1], date);
      }
    }
    if k :| 0 <= k < |rows| && '"' in rows[k].message {
      RowAsWrittenLength(rows[k], date);
      JoinLonger(a, b, "\n", k + 1);
    } else {
      forall i | 0 <= i < |rows| ensures CsvRowAsWritten(date)(rows[i]) == CsvRow(date)(rows[i]) {
        RowAsWrittenLength(rows[i], date);
      }
      assert Project(rows, CsvRowAsWritten(date)) == Project(rows, CsvRow(date));
    }
  }
}
