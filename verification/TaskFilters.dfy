/** GetTasksByUserIDWithPagination: the filters of the count query and of the data query, built one
    after the other, what they select, and the pages of the rows selected. */
module TaskFilters {
  import opened Text
  import opened Like
  import opened Paging

  // ---------- rows and filters ----------

  // The columns the filters look at, with NULL as None, and the providers of a task's links.
  datatype Columns = Columns(
    userId: int, deleted: bool, status: Option<string>, start: Option<int>, createdAt: int, cron: Option<string>,
    rrule: Option<string>, confirmation: Option<bool>, chat: Option<int>, title: string, skipDigest: bool,
    providers: set<string>)

  // Each row as the sort sees it, with its other columns.
  type Table = map<Row, Columns>

  datatype Filters = Filters(
    status: Option<string>, statusNot: Option<string>, startFrom: Option<int>, startTo: Option<int>,
    createdFrom: Option<int>, createdTo: Option<int>, cron: Option<string>, cronIsNull: Option<bool>,
    confirmation: Option<bool>, chats: Option<seq<int>>, excludeRecurringConfirmation: Option<bool>,
    provider: Option<string>, title: Option<string>, excludeSkipDigest: Option<bool>)

  // An empty text is no filter.
  predicate Given(text: Option<string>) { text.Some? && text.value != "" }

  predicate On(flag: Option<bool>) { flag == Some(true) }

  // A task the caller asked for.
  predicate Wanted(userId: int, f: Filters, r: Columns, fold: Fold) {
    && !r.deleted && r.userId == userId
    && (Given(f.status) ==> r.status == f.status)
    && (Given(f.statusNot) ==> r.status.Some? && r.status != f.statusNot)
    && (f.startFrom.Some? ==> r.start.Some? && f.startFrom.value <= r.start.value)
    && (f.startTo.Some? ==> r.start.Some? && r.start.value <= f.startTo.value)
    && (f.createdFrom.Some? ==> f.createdFrom.value <= r.createdAt)
    && (f.createdTo.Some? ==> r.createdAt <= f.createdTo.value)
    && (Given(f.cron) ==> r.cron == f.cron)
    && (f.cronIsNull.Some? ==> f.cronIsNull.value == r.cron.None?)
    && (f.confirmation.Some? ==> r.confirmation == f.confirmation)
    && (f.chats.Some? && f.chats.value != [] ==> r.chat.Some? && r.chat.value in f.chats.value)
    && (On(f.excludeRecurringConfirmation) ==> (r.cron.None? && r.rrule.None?) || r.confirmation == Some(false))
    && (Given(f.provider) ==> f.provider.value in r.providers)
    && (Given(f.title) ==> Contains(Folded(r.title, fold), Folded(f.title.value, fold)))
    && (On(f.excludeSkipDigest) ==> !r.skipDigest)
  }

  // ---------- WHERE ----------

  datatype Clause =
    | NotDeleted | OwnedBy(userId: int) | StatusIs(status: string) | StatusIsNot(status: string)
    | StartFrom(at: int) | StartTo(at: int) | CreatedFrom(at: int) | CreatedTo(at: int)
    | CronIs(cron: string) | CronNull | CronNotNull | ConfirmationIs(on: bool) | ChatIn(chats: seq<int>)
    | NoRecurringConfirmation | LinkedBy(provider: string) | TitleLike(pattern: string) | DigestKept

  // A comparison with NULL is not true.
  predicate Holds(c: Clause, r: Columns, fold: Fold) {
    match c
    case NotDeleted => !r.deleted
    case OwnedBy(userId) => r.userId == userId
    case StatusIs(status) => r.status == Some(status)
    case StatusIsNot(status) => r.status.Some? && r.status.value != status
    case StartFrom(at) => r.start.Some? && r.start.value >= at
    case StartTo(at) => r.start.Some? && r.start.value <= at
    case CreatedFrom(at) => r.createdAt >= at
    case CreatedTo(at) => r.createdAt <= at
    case CronIs(cron) => r.cron == Some(cron)
    case CronNull => r.cron.None?
    case CronNotNull => r.cron.Some?
    case ConfirmationIs(on) => r.confirmation == Some(on)
    case ChatIn(chats) => r.chat.Some? && r.chat.value in chats
    case NoRecurringConfirmation => (r.cron.None? && r.rrule.None?) || r.confirmation == Some(false)
    case LinkedBy(provider) => provider in r.providers
    case TitleLike(pattern) => Matches(pattern, r.title, fold)
    case DigestKept => !r.skipDigest
  }

  predicate Selects(cs: seq<Clause>, r: Columns, fold: Fold) {
    forall i :: 0 <= i < |cs| ==> Holds(cs[i], r, fold)
  }

  function Matching(table: Table, cs: seq<Clause>, fold: Fold): set<Row> {
    set r | r in table && Selects(cs, table[r], fold)
  }

  function Pattern(title: string): string { "%" + EscapeLikePattern(title) + "%" }

  function Add(cs: seq<Clause>, guard: bool, c: Clause): seq<Clause> {
    if guard then cs + [c] else cs
  }

  // ---------- the filters as clauses, group by group ----------

  function Word(o: Option<string>): string { if o.Some? then o.value else "" }

  function Number(o: Option<int>): int { if o.Some? then o.value else 0 }

  function Flag(o: Option<bool>): bool { o.Some? && o.value }

  function DateClauses(cs: seq<Clause>, f: Filters): seq<Clause> {
    var c1 := Add(cs, f.startFrom.Some?, StartFrom(Number(f.startFrom)));
    var c2 := Add(c1, f.startTo.Some?, StartTo(Number(f.startTo)));
    var c3 := Add(c2, f.createdFrom.Some?, CreatedFrom(Number(f.createdFrom)));
    Add(c3, f.createdTo.Some?, CreatedTo(Number(f.createdTo)))
  }

  function RuleClauses(cs: seq<Clause>, f: Filters): seq<Clause> {
    var c1 := Add(cs, Given(f.cron), CronIs(Word(f.cron)));
    var c2 := Add(c1, f.cronIsNull.Some?, if Flag(f.cronIsNull) then CronNull else CronNotNull);
    Add(c2, f.confirmation.Some?, ConfirmationIs(Flag(f.confirmation)))
  }

  function LinkClauses(cs: seq<Clause>, f: Filters): seq<Clause> {
    var c1 := Add(cs, f.chats.Some? && f.chats.value != [], ChatIn(if f.chats.Some? then f.chats.value else []));
    var c2 := Add(c1, On(f.excludeRecurringConfirmation), NoRecurringConfirmation);
    Add(c2, Given(f.provider), LinkedBy(Word(f.provider)))
  }

  function TitleClauses(cs: seq<Clause>, f: Filters): seq<Clause> {
    Add(Add(cs, Given(f.title), TitleLike(Pattern(Word(f.title)))), On(f.excludeSkipDigest), DigestKept)
  }

  function ColumnClauses(userId: int, f: Filters): seq<Clause> {
    var c1 := Add([NotDeleted, OwnedBy(userId)], Given(f.status), StatusIs(Word(f.status)));
    DateClauses(Add(c1, Given(f.statusNot), StatusIsNot(Word(f.statusNot))), f)
  }

  function Clauses(userId: int, f: Filters): seq<Clause> {
    TitleClauses(LinkClauses(RuleClauses(ColumnClauses(userId, f), f), f), f)
  }

  lemma AddSelects(cs: seq<Clause>, guard: bool, c: Clause, r: Columns, fold: Fold)
    ensures Selects(Add(cs, guard, c), r, fold) <==> Selects(cs, r, fold) && (guard ==> Holds(c, r, fold))
  {
    if guard {
      assert (cs + [c])[|cs|] == c;
      assert forall i :: 0 <= i < |cs| ==> (cs + [c])[i] == cs[i];
    }
  }

  lemma DatesSelect(cs: seq<Clause>, f: Filters, r: Columns, fold: Fold)
    ensures Selects(DateClauses(cs, f), r, fold) <==>
            && Selects(cs, r, fold)
            && (f.startFrom.Some? ==> r.start.Some? && f.startFrom.value <= r.start.value)
            && (f.startTo.Some? ==> r.start.Some? && r.start.value <= f.startTo.value)
            && (f.createdFrom.Some? ==> f.createdFrom.value <= r.createdAt)
            && (f.createdTo.Some? ==> r.createdAt <= f.createdTo.value)
  {
    var c1 := Add(cs, f.startFrom.Some?, StartFrom(Number(f.startFrom)));
    var c2 := Add(c1, f.startTo.Some?, StartTo(Number(f.startTo)));
    var c3 := Add(c2, f.createdFrom.Some?, CreatedFrom(Number(f.createdFrom)));
    AddSelects(cs, f.startFrom.Some?, StartFrom(Number(f.startFrom)), r, fold);
    AddSelects(c1, f.startTo.Some?, StartTo(Number(f.startTo)), r, fold);
    AddSelects(c2, f.createdFrom.Some?, CreatedFrom(Number(f.createdFrom)), r, fold);
    AddSelects(c3, f.createdTo.Some?, CreatedTo(Number(f.createdTo)), r, fold);
  }

  lemma RulesSelect(cs: seq<Clause>, f: Filters, r: Columns, fold: Fold)
    ensures Selects(RuleClauses(cs, f), r, fold) <==>
            && Selects(cs, r, fold)
            && (Given(f.cron) ==> r.cron == f.cron)
            && (f.cronIsNull.Some? ==> f.cronIsNull.value == r.cron.None?)
            && (f.confirmation.Some? ==> r.confirmation == f.confirmation)
  {
    var c1 := Add(cs, Given(f.cron), CronIs(Word(f.cron)));
    var c2 := Add(c1, f.cronIsNull.Some?, if Flag(f.cronIsNull) then CronNull else CronNotNull);
    AddSelects(cs, Given(f.cron), CronIs(Word(f.cron)), r, fold);
    AddSelects(c1, f.cronIsNull.Some?, if Flag(f.cronIsNull) then CronNull else CronNotNull, r, fold);
    AddSelects(c2, f.confirmation.Some?, ConfirmationIs(Flag(f.confirmation)), r, fold);
  }

  lemma LinksSelect(cs: seq<Clause>, f: Filters, r: Columns, fold: Fold)
    ensures Selects(LinkClauses(cs, f), r, fold) <==>
            && Selects(cs, r, fold)
            && (f.chats.Some? && f.chats.value != [] ==> r.chat.Some? && r.chat.value in f.chats.value)
            && (On(f.excludeRecurringConfirmation) ==>
                  (r.cron.None? && r.rrule.None?) || r.confirmation == Some(false))
            && (Given(f.provider) ==> f.provider.value in r.providers)
  {
    var chats := if f.chats.Some? then f.chats.value else [];
    var c1 := Add(cs, f.chats.Some? && f.chats.value != [], ChatIn(chats));
    var c2 := Add(c1, On(f.excludeRecurringConfirmation), NoRecurringConfirmation);
    AddSelects(cs, f.chats.Some? && f.chats.value != [], ChatIn(chats), r, fold);
    AddSelects(c1, On(f.excludeRecurringConfirmation), NoRecurringConfirmation, r, fold);
    AddSelects(c2, Given(f.provider), LinkedBy(Word(f.provider)), r, fold);
  }

  lemma PatternHolds(title: string, r: Columns, fold: Fold)
    ensures Holds(TitleLike(Pattern(title)), r, fold) <==> Contains(Folded(r.title, fold), Folded(title, fold))
  {
    PatternIsSubstring(title, r.title, fold);
  }

  lemma TitlesSelect(cs: seq<Clause>, f: Filters, r: Columns, fold: Fold)
    ensures Selects(TitleClauses(cs, f), r, fold) <==>
            && Selects(cs, r, fold)
            && (Given(f.title) ==> Contains(Folded(r.title, fold), Folded(f.title.value, fold)))
            && (On(f.excludeSkipDigest) ==> !r.skipDigest)
  {
    var like := TitleLike(Pattern(Word(f.title)));
    AddSelects(cs, Given(f.title), like, r, fold);
    AddSelects(Add(cs, Given(f.title), like), On(f.excludeSkipDigest), DigestKept, r, fold);
    PatternHolds(Word(f.title), r, fold);
  }

  // The clauses select exactly the tasks that were asked for.
  lemma ClausesSelectWanted(userId: int, f: Filters, r: Columns, fold: Fold)
    ensures Selects(Clauses(userId, f), r, fold) <==> Wanted(userId, f, r, fold)
  {
    var c0 := [NotDeleted, OwnedBy(userId)];
    var c1 := Add(c0, Given(f.status), StatusIs(Word(f.status)));
    var c2 := Add(c1, Given(f.statusNot), StatusIsNot(Word(f.statusNot)));
    assert c0[0] == NotDeleted && c0[1] == OwnedBy(userId);
    assert Selects(c0, r, fold) <==> !r.deleted && r.userId == userId;
    AddSelects(c0, Given(f.status), StatusIs(Word(f.status)), r, fold);
    AddSelects(c1, Given(f.statusNot), StatusIsNot(Word(f.statusNot)), r, fold);
    DatesSelect(c2, f, r, fold);
    RulesSelect(DateClauses(c2, f), f, r, fold);
    LinksSelect(RuleClauses(DateClauses(c2, f), f), f, r, fold);
    TitlesSelect(LinkClauses(RuleClauses(DateClauses(c2, f), f), f), f, r, fold);
  }

  lemma ClausesSelect(userId: int, f: Filters)
    ensures forall r, fold :: Selects(Clauses(userId, f), r, fold) <==> Wanted(userId, f, r, fold)
  {
    forall r, fold ensures Selects(Clauses(userId, f), r, fold) <==> Wanted(userId, f, r, fold) {
      ClausesSelectWanted(userId, f, r, fold);
    }
  }

  // ---------- the two queries ----------

  // The filters of the count query, up to the dates.
  method CountColumns(userId: int, f: Filters) returns (cs: seq<Clause>)
    ensures cs == ColumnClauses(userId, f)
  {
    cs := [NotDeleted, OwnedBy(userId)];
    if f.status.Some? && f.status.value != "" { cs := cs + [StatusIs(f.status.value)]; }
    if f.statusNot.Some? && f.statusNot.value != "" { cs := cs + [StatusIsNot(f.statusNot.value)]; }
    ghost var stated := cs;
    if f.startFrom.Some? { cs := cs + [StartFrom(f.startFrom.value)]; }
    if f.startTo.Some? { cs := cs + [StartTo(f.startTo.value)]; }
    if f.createdFrom.Some? { cs := cs + [CreatedFrom(f.createdFrom.value)]; }
    if f.createdTo.Some? { cs := cs + [CreatedTo(f.createdTo.value)]; }
    assert cs == DateClauses(stated, f);
  }

  // Its filters on the rule, the chat and the links.
  method CountRelations(before: seq<Clause>, f: Filters) returns (cs: seq<Clause>)
    ensures cs == LinkClauses(RuleClauses(before, f), f)
  {
    cs := before;
    if f.cron.Some? && f.cron.value != "" { cs := cs + [CronIs(f.cron.value)]; }
    if f.cronIsNull.Some? {
      if f.cronIsNull.value { cs := cs + [CronNull]; } else { cs := cs + [CronNotNull]; }
    }
    if f.confirmation.Some? { cs := cs + [ConfirmationIs(f.confirmation.value)]; }
    assert cs == RuleClauses(before, f);
    ghost var ruled := cs;
    if f.chats.Some? && |f.chats.value| > 0 { cs := cs + [ChatIn(f.chats.value)]; }
    if f.excludeRecurringConfirmation.Some? && f.excludeRecurringConfirmation.value {
      cs := cs + [NoRecurringConfirmation];
    }
    if f.provider.Some? && f.provider.value != "" { cs := cs + [LinkedBy(f.provider.value)]; }
  }

  // All its filters, in order.
  method CountClauses(userId: int, f: Filters) returns (cs: seq<Clause>)
    ensures cs == Clauses(userId, f)
    ensures forall r, fold :: Selects(cs, r, fold) <==> Wanted(userId, f, r, fold)
  {
    cs := CountColumns(userId, f);
    cs := CountRelations(cs, f);
    if f.title.Some? && f.title.value != "" { cs := cs + [TitleLike("%" + EscapeLikePattern(f.title.value) + "%")]; }
    if f.excludeSkipDigest.Some? && f.excludeSkipDigest.value { cs := cs + [DigestKept]; }
    ClausesSelect(userId, f);
  }

  // The filters of the data query, built anew.
  method DataColumns(userId: int, f: Filters) returns (cs: seq<Clause>)
    ensures cs == ColumnClauses(userId, f)
  {
    cs := [NotDeleted, OwnedBy(userId)];
    if f.status.Some? && f.status.value != "" { cs := cs + [StatusIs(f.status.value)]; }
    if f.statusNot.Some? && f.statusNot.value != "" { cs := cs + [StatusIsNot(f.statusNot.value)]; }
    ghost var stated := cs;
    if f.startFrom.Some? { cs := cs + [StartFrom(f.startFrom.value)]; }
    if f.startTo.Some? { cs := cs + [StartTo(f.startTo.value)]; }
    if f.createdFrom.Some? { cs := cs + [CreatedFrom(f.createdFrom.value)]; }
    if f.createdTo.Some? { cs := cs + [CreatedTo(f.createdTo.value)]; }
    assert cs == DateClauses(stated, f);
  }

  // Its filters on the rule, the chat and the links.
  method DataRelations(before: seq<Clause>, f: Filters) returns (cs: seq<Clause>)
    ensures cs == LinkClauses(RuleClauses(before, f), f)
  {
    cs := before;
    if f.cron.Some? && f.cron.value != "" { cs := cs + [CronIs(f.cron.value)]; }
    if f.cronIsNull.Some? {
      if f.cronIsNull.value { cs := cs + [CronNull]; } else { cs := cs + [CronNotNull]; }
    }
    if f.confirmation.Some? { cs := cs + [ConfirmationIs(f.confirmation.value)]; }
    assert cs == RuleClauses(before, f);
    ghost var ruled := cs;
    if f.chats.Some? && |f.chats.value| > 0 { cs := cs + [ChatIn(f.chats.value)]; }
    if f.excludeRecurringConfirmation.Some? && f.excludeRecurringConfirmation.value {
      cs := cs + [NoRecurringConfirmation];
    }
    if f.provider.Some? && f.provider.value != "" { cs := cs + [LinkedBy(f.provider.value)]; }
  }

  // All its filters, in order.
  method DataClauses(userId: int, f: Filters) returns (cs: seq<Clause>)
    ensures cs == Clauses(userId, f)
    ensures forall r, fold :: Selects(cs, r, fold) <==> Wanted(userId, f, r, fold)
  {
    cs := DataColumns(userId, f);
    cs := DataRelations(cs, f);
    if f.title.Some? && f.title.value != "" { cs := cs + [TitleLike("%" + EscapeLikePattern(f.title.value) + "%")]; }
    if f.excludeSkipDigest.Some? && f.excludeSkipDigest.value { cs := cs + [DigestKept]; }
    ClausesSelect(userId, f);
  }

  function WantedRows(table: Table, userId: int, f: Filters, fold: Fold): set<Row> {
    set r | r in table && Wanted(userId, f, table[r], fold)
  }

  lemma MatchingIsWanted(table: Table, userId: int, f: Filters, fold: Fold)
    ensures Matching(table, Clauses(userId, f), fold) == WantedRows(table, userId, f, fold)
  {
    forall r | r in table
      ensures Selects(Clauses(userId, f), table[r], fold) <==> Wanted(userId, f, table[r], fold)
    {
      ClausesSelectWanted(userId, f, table[r], fold);
    }
  }

  // The page and the total; sort is the order in which the database returns a set of rows.
  method GetTasks(
      table: Table, userId: int, f: Filters, page: int, size: int, orderBy: string, fold: Fold,
      sort: set<Row> -> seq<Row>)
    returns (rows: seq<Row>, total: nat)
    requires var wanted := WantedRows(table, userId, f, fold);
             Result(wanted, Terms(StableOrderBy(orderBy)), sort(wanted))
    ensures var wanted := WantedRows(table, userId, f, fold);
            rows == Page(sort(wanted), page, size) && total == |sort(wanted)| == |wanted|
  {
    MatchingIsWanted(table, userId, f, fold);
    ghost var wanted := WantedRows(table, userId, f, fold);
    ResultSize(wanted, Terms(StableOrderBy(orderBy)), sort(wanted));
    var counted := CountClauses(userId, f);
    total := |Matching(table, counted, fold)|;
    var asked := DataClauses(userId, f);
    rows := Page(sort(Matching(table, asked, fold)), page, size);
  }

  // Main result: over an unchanged table and for any filters and order, the pages of separate
  // queries put together are the sorted list of exactly the tasks asked for, each once, and as
  // many as the count query says.
  lemma FilteredPagesPartition(
      table: Table, userId: int, f: Filters, fold: Fold, orderBy: string, results: seq<seq<Row>>, size: int,
      list: seq<Row>)
    requires UniqueIds(table.Keys)
    requires Result(Matching(table, Clauses(userId, f), fold), Terms(StableOrderBy(orderBy)), list)
    requires forall i :: 0 <= i < |results| ==>
               Result(Matching(table, Clauses(userId, f), fold), Terms(StableOrderBy(orderBy)), results[i])
    requires |results| * EffectiveSize(size) >= |Matching(table, Clauses(userId, f), fold)|
    ensures Pages(results, |results|, size) == list
    ensures |list| == |Matching(table, Clauses(userId, f), fold)|
    ensures forall r :: r in list <==> r in table && Wanted(userId, f, table[r], fold)
  {
    MatchingIsWanted(table, userId, f, fold);
    PagesPartition(Matching(table, Clauses(userId, f), fold), orderBy, results, size, list);
  }
}
