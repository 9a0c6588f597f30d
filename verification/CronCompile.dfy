/** CronExpressionToRRule: the compiler from five-field cron to an RRULE body, and its expansion
    loops. */
module CronCompile {
  import opened Text
  import opened Gregorian
  import opened CronRule
  import opened RRule

  // ---------- the compiler ----------

  const DOW_DIGITS: seq<string> := ["0", "1", "2", "3", "4", "5", "6"]
  const DOW_LONG: seq<string> := ["sunday", "monday", "tuesday", "wednesday", "thursday", "friday", "saturday"]

  // cronDowTokenToNumber
  function DowTokenToNumber(token: string): (r: Option<int>)
    ensures r.Some? ==> 0 <= r.value <= 7
  {
    var tok := ToLower(TrimSpace(token));
    if tok == ['7'] then Some(0)
    else DowTable(tok)
  }

  function DowTable(tok: string): (r: Option<int>)
    ensures r.Some? ==> 0 <= r.value <= 7
  {
    var digit, short, long := IndexOf(DOW_DIGITS, tok), IndexOf(WEEKDAYS, tok), IndexOf(DOW_LONG, tok);
    if digit.Some? then digit
    else if short.Some? then short
    else if long.Some? then long
    else match Atoi(tok)
      case None => None
      case Some(n) => if n < 0 || n > 7 then None else Some(n)
  }

  // How one number of a field is read: an integer within bounds, or a weekday token.
  datatype Reader = IntReader(lo: int, hi: int) | DowReader

  function Lowest(reader: Reader): int { if reader.DowReader? then 0 else reader.lo }

  function Highest(reader: Reader): int { if reader.DowReader? then 7 else reader.hi }

  function ReadInt(token: string, lo: int, hi: int): (r: Option<int>)
    ensures r.Some? ==> lo <= r.value <= hi
  {
    match Atoi(TrimSpace(token))
    case None => None
    case Some(n) => if n < lo || n > hi then None else Some(n)
  }

  function Read(reader: Reader, token: string): (r: Option<int>)
    ensures r.Some? ==> Lowest(reader) <= r.value <= Highest(reader)
  {
    match reader
    case DowReader => DowTokenToNumber(token)
    case IntReader(lo, hi) => ReadInt(token, lo, hi)
  }

  function UpTo(a: int, b: int): (s: seq<int>)
    ensures |s| == if a <= b then b - a + 1 else 0
    ensures forall i :: 0 <= i < |s| ==> s[i] == a + i
    decreases b - a
  {
    if a > b then [] else [a] + UpTo(a + 1, b)
  }

  predicate Within(ns: seq<int>, lo: int, hi: int) {
    forall i :: 0 <= i < |ns| ==> lo <= ns[i] <= hi
  }

  // What one comma-separated piece stands for: `n` or `n-m`.
  function ExpandPiece(reader: Reader, rawPiece: string): (r: Option<seq<int>>)
    ensures r.Some? ==> r.value != [] && Within(r.value, Lowest(reader), Highest(reader))
  {
    var piece := TrimSpace(rawPiece);
    if piece == "" then None
    else if '-' in piece then
      var ends := Split(piece, '-');
      if |ends| != 2 then None
      else
        var a, b := Read(reader, ends[0]), Read(reader, ends[1]);
        if a.None? || b.None? || a.value > b.value then None else Some(UpTo(a.value, b.value))
    else
      match Read(reader, piece) case None => None case Some(n) => Some([n])
  }

  function ExpandPieces(reader: Reader, pieces: seq<string>): (r: Option<seq<int>>)
    ensures r.Some? ==> Within(r.value, Lowest(reader), Highest(reader))
    ensures r.Some? && pieces != [] ==> r.value != []
  {
    if pieces == [] then Some([])
    else match ExpandPiece(reader, pieces[0])
      case None => None
      case Some(a) => match ExpandPieces(reader, pieces[1..]) case None => None case Some(b) => Some(a + b)
  }

  function ExpandField(reader: Reader, field: string): (r: Option<seq<int>>)
    ensures r.Some? ==> r.value != [] && Within(r.value, Lowest(reader), Highest(reader))
  {
    if field == "*" || HasPrefix(field, "*/") then None else ExpandPieces(reader, Split(field, ','))
  }

  function Printed(ns: seq<int>): (r: seq<string>)
    requires Within(ns, 0, MAX_INT64)
    ensures |r| == |ns|
  {
    if ns == [] then [] else [Itoa(ns[0])] + Printed(ns[1..])
  }

  // The weekday tokens of nums in order of first appearance; 7 is Sunday as well.
  function ByDayNames(nums: seq<int>, seen: set<string>): seq<string>
    requires Within(nums, 0, 7)
  {
    if nums == [] then []
    else
      var name := WEEKDAY_TOKENS[nums[0] % 7];
      if name in seen then ByDayNames(nums[1..], seen)
      else [name] + ByDayNames(nums[1..], seen + {name})
  }

  // cronFieldToCSV
  function FieldToCSV(field: string, lo: int, hi: int): Option<string>
    requires 0 <= lo && hi <= MAX_INT64
  {
    match ExpandField(IntReader(lo, hi), field)
    case None => None
    case Some(ns) => Some(Join(Printed(ns), ","))
  }

  // cronDowToByDay
  function DowToByDay(field: string): Option<string> {
    match ExpandField(DowReader, field)
    case None => None
    case Some(nums) => Some(Join(ByDayNames(nums, {}), ","))
  }

  // A minute or hour field that would need its own frequency is refused.
  predicate RefusedTimeField(f: string) {
    HasPrefix(f, "*/") || '-' in f || ',' in f
  }

  // CronExpressionToRRule
  function CronToRRule(expr: string): Option<string> {
    var f := Fields(expr);
    if ParseCron(expr).None? || |f| != 5 then None
    else if RefusedTimeField(f[0]) || RefusedTimeField(f[1]) then None
    else
      var dom, month, dow := f[2], f[3], f[4];
      if dom == "*" && month == "*" && dow == "*" then Some("FREQ=DAILY")
      else if dom == "*" && month == "*" then
        match DowToByDay(dow) case None => None case Some(byDay) => Some("FREQ=WEEKLY;BYDAY=" + byDay)
      else if dom != "*" && month == "*" && dow == "*" then
        match FieldToCSV(dom, 1, 31) case None => None case Some(days) => Some("FREQ=MONTHLY;BYMONTHDAY=" + days)
      else if dom != "*" && month != "*" && dow == "*" then
        match FieldToCSV(dom, 1, 31)
        case None => None
        case Some(days) =>
          match FieldToCSV(month, 1, 12)
          case None => None
          case Some(months) => Some("FREQ=YEARLY;BYMONTH=" + months + ";BYMONTHDAY=" + days)
      else None
  }

  // ---------- the expansion loops ----------

  // After i pieces the loop holds `done`, and the rest of the field is still to come.
  predicate Remaining(reader: Reader, pieces: seq<string>, i: int, done: seq<int>) {
    0 <= i <= |pieces| &&
    match ExpandPieces(reader, pieces[i..])
    case None => ExpandPieces(reader, pieces).None?
    case Some(rest) => ExpandPieces(reader, pieces) == Some(done + rest)
  }

  lemma AtStart(reader: Reader, pieces: seq<string>)
    ensures Remaining(reader, pieces, 0, [])
  {
    assert pieces[0..] == pieces;
    var r := ExpandPieces(reader, pieces);
    if r.Some? { assert [] + r.value == r.value; }
  }

  lemma Advance(reader: Reader, pieces: seq<string>, i: nat, done: seq<int>)
    requires i < |pieces| && Remaining(reader, pieces, i, done)
    ensures var piece := ExpandPiece(reader, pieces[i]);
            if piece.None? then ExpandPieces(reader, pieces).None?
            else Remaining(reader, pieces, i + 1, done + piece.value)
  {
    assert pieces[i..][1..] == pieces[i + 1..];
    var piece, rest := ExpandPiece(reader, pieces[i]), ExpandPieces(reader, pieces[i + 1..]);
    if piece.Some? && rest.Some? {
      assert done + (piece.value + rest.value) == done + piece.value + rest.value;
    }
  }

  lemma AtEnd(reader: Reader, pieces: seq<string>, done: seq<int>)
    requires Remaining(reader, pieces, |pieces|, done)
    ensures ExpandPieces(reader, pieces) == Some(done)
  {
    assert pieces[|pieces|..] == [];
    assert done + [] == done;
  }

  // The inner loop over a range, which both expansions share.
  method AppendRange(ns: seq<int>, a: int, b: int) returns (result: seq<int>)
    requires a <= b
    ensures result == ns + UpTo(a, b)
  {
    result := ns;
    var n := a;
    while n <= b
      invariant a <= n <= b + 1
      invariant ns + UpTo(a, b) == result + UpTo(n, b)
    {
      assert result + UpTo(n, b) == result + [n] + UpTo(n + 1, b);
      result := result + [n];
      n := n + 1;
    }
    assert result + UpTo(b + 1, b) == result;
  }

  // The tests of expandCronIntList on one piece, side by side with the generic expansion.
  lemma IntPiece(rawPiece: string, lo: int, hi: int)
    ensures var piece := TrimSpace(rawPiece);
            piece != "" && '-' !in piece ==>
              ExpandPiece(IntReader(lo, hi), rawPiece) ==
              var n := Atoi(piece);
              if n.None? || n.value < lo || n.value > hi then None else Some([n.value])
  {
    TrimSpaceTrims(rawPiece);
    TrimSpaceFixes(TrimSpace(rawPiece));
  }

  lemma IntRange(rawPiece: string, lo: int, hi: int)
    ensures var piece := TrimSpace(rawPiece);
            var ends := Split(piece, '-');
            piece != "" && '-' in piece && |ends| == 2 ==>
              ExpandPiece(IntReader(lo, hi), rawPiece) ==
              var a, b := Atoi(TrimSpace(ends[0])), Atoi(TrimSpace(ends[1]));
              if a.None? || b.None? || a.value > b.value || a.value < lo || b.value > hi then None
              else Some(UpTo(a.value, b.value))
  {
  }

  // expandCronIntList
  method ExpandCronIntList(field: string, lo: int, hi: int) returns (result: seq<int>, ok: bool)
    ensures ok <==> ExpandField(IntReader(lo, hi), field).Some?
    ensures ok ==> result == ExpandField(IntReader(lo, hi), field).value
  {
    result := [];
    if field == "*" || HasPrefix(field, "*/") {
      return [], false;
    }
    var pieces := Split(field, ',');
    ghost var reader := IntReader(lo, hi);
    AtStart(reader, pieces);
    for i := 0 to |pieces|
      invariant Remaining(reader, pieces, i, result)
    {
      Advance(reader, pieces, i, result);
      IntPiece(pieces[i], lo, hi);
      IntRange(pieces[i], lo, hi);
      var piece := TrimSpace(pieces[i]);
      if piece == "" {
        return [], false;
      }
      if '-' in piece {
        var ends := Split(piece, '-');
        if |ends| != 2 {
          return [], false;
        }
        var a, b := Atoi(TrimSpace(ends[0])), Atoi(TrimSpace(ends[1]));
        if a.None? || b.None? || a.value > b.value || a.value < lo || b.value > hi {
          return [], false;
        }
        result := AppendRange(result, a.value, b.value);
      } else {
        var n := Atoi(piece);
        if n.None? || n.value < lo || n.value > hi {
          return [], false;
        }
        result := result + [n.value];
      }
    }
    AtEnd(reader, pieces, result);
    ok := true;
  }

  // The second loop of cronDowToByDay: weekday tokens without repetition.
  method DistinctNames(nums: seq<int>) returns (names: seq<string>)
    requires Within(nums, 0, 7)
    ensures names == ByDayNames(nums, {})
  {
    names := [];
    var seen: set<string> := {};
    for i := 0 to |nums|
      invariant ByDayNames(nums, {}) == names + ByDayNames(nums[i..], seen)
    {
      assert nums[i..][1..] == nums[i + 1..];
      var n := if nums[i] == 7 then 0 else nums[i];
      var name := WEEKDAY_TOKENS[n];
      if name !in seen {
        seen := seen + {name};
        names := names + [name];
      }
    }
  }

  // cronDowToByDay
  method CronDowToByDay(field: string) returns (csv: string, ok: bool)
    ensures ok <==> DowToByDay(field).Some?
    ensures ok ==> csv == DowToByDay(field).value
  {
    csv := "";
    if field == "*" || HasPrefix(field, "*/") {
      return "", false;
    }
    var nums: seq<int> := [];
    var pieces := Split(field, ',');
    AtStart(DowReader, pieces);
    for i := 0 to |pieces|
      invariant Remaining(DowReader, pieces, i, nums)
    {
      Advance(DowReader, pieces, i, nums);
      var piece := TrimSpace(pieces[i]);
      if piece == "" {
        return "", false;
      }
      if '-' in piece {
        var ends := Split(piece, '-');
        if |ends| != 2 {
          return "", false;
        }
        var a, b := DowTokenToNumber(ends[0]), DowTokenToNumber(ends[1]);
        if a.None? || b.None? || a.value > b.value {
          return "", false;
        }
        nums := AppendRange(nums, a.value, b.value);
      } else {
        var n := DowTokenToNumber(piece);
        if n.None? {
          return "", false;
        }
        nums := nums + [n.value];
      }
    }
    AtEnd(DowReader, pieces, nums);
    var names := DistinctNames(nums);
    csv, ok := Join(names, ","), true;
  }
}
