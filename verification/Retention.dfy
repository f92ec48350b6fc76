/** Which backups the retention policy keeps (app/sync/backup.py:77-138, 398-399). */
module Retention {
  import opened Base

  /** A backup as listed; an unreadable one has no more than its id. */
  datatype Backup = Backup(id: string, unreadable: bool, createdAt: Option<string>, kind: Option<string>)

  datatype Verdict = Keep | Drop | Leave

  // ---------------------------------------------------------------------------
  // Time stamps
  // ---------------------------------------------------------------------------

  /** The order of strings. */
  predicate NotAfter(a: string, b: string) {
    a == [] || (b != [] && (a[0] < b[0] || (a[0] == b[0] && NotAfter(a[1..], b[1..]))))
  }

  lemma {:induction false} NotAfterIsTotal(a: string, b: string)
    ensures NotAfter(a, b) || NotAfter(b, a)
    ensures NotAfter(a, b) && NotAfter(b, a) ==> a == b
    decreases |a|
  {
    if a != [] && b != [] {
      NotAfterIsTotal(a[1..], b[1..]);
      if a[0] == b[0] && a[1..] == b[1..] {
        assert a == [a[0]] + a[1..] && b == [b[0]] + b[1..];
      }
    }
  }

  lemma {:induction false} NotAfterIsTransitive(a: string, b: string, c: string)
    requires NotAfter(a, b) && NotAfter(b, c)
    ensures NotAfter(a, c)
    decreases |a|
  {
    if a != [] && a[0] == b[0] == c[0] {
      NotAfterIsTransitive(a[1..], b[1..], c[1..]);
    }
  }

  /** `[:n]`. */
  function Cut(s: string, n: nat): string {
    if |s| <= n then s else s[..n]
  }

  lemma {:induction false} CutKeepsOrder(a: string, b: string, n: nat)
    requires NotAfter(a, b)
    ensures NotAfter(Cut(a, n), Cut(b, n))
    decreases n
  {
    if a != [] && n > 0 && a[0] == b[0] {
      CutKeepsOrder(a[1..], b[1..], n - 1);
      assert Cut(a, n)[1..] == Cut(a[1..], n - 1);
      assert Cut(b, n)[1..] == Cut(b[1..], n - 1);
    }
  }

  // ---------------------------------------------------------------------------
  // The listing
  // ---------------------------------------------------------------------------

  /** The sort key. */
  function Stamp(b: Backup): string {
    if b.createdAt.Some? then b.createdAt.value else []
  }

  /** `list_backups` sorts newest first and keeps equals in their order. */
  function NewestFirst(files: seq<Backup>): (bs: seq<Backup>)
    ensures multiset(bs) == multiset(files)
  {
    if files == [] then []
    else
      assert files == [files[0]] + files[1..];
      Placed(files[0], NewestFirst(files[1..]))
  }

  function Placed(b: Backup, bs: seq<Backup>): (placed: seq<Backup>)
    ensures multiset(placed) == multiset(bs) + multiset{b}
  {
    if bs == [] || NotAfter(Stamp(bs[0]), Stamp(b)) then [b] + bs
    else
      assert bs == [bs[0]] + bs[1..];
      [bs[0]] + Placed(b, bs[1..])
  }

  ghost predicate Descending(bs: seq<Backup>) {
    forall i, j :: 0 <= i < j < |bs| ==> NotAfter(Stamp(bs[j]), Stamp(bs[i]))
  }

  lemma {:induction false} PlacedDescends(b: Backup, bs: seq<Backup>)
    requires Descending(bs)
    ensures Descending(Placed(b, bs))
    decreases |bs|
  {
    var placed := Placed(b, bs);
    if bs == [] || NotAfter(Stamp(bs[0]), Stamp(b)) {
      forall j | 0 < j < |placed| ensures NotAfter(Stamp(placed[j]), Stamp(b)) {
        if j > 1 { NotAfterIsTransitive(Stamp(placed[j]), Stamp(bs[0]), Stamp(b)); }
      }
    } else {
      var rest := Placed(b, bs[1..]);
      PlacedDescends(b, bs[1..]);
      NotAfterIsTotal(Stamp(bs[0]), Stamp(b));
      forall j | 0 <= j < |rest| ensures NotAfter(Stamp(rest[j]), Stamp(bs[0])) {
        assert rest[j] in multiset(rest);
        assert rest[j] == b || rest[j] in multiset(bs[1..]);
      }
    }
  }

  lemma {:induction false} NewestFirstDescends(files: seq<Backup>)
    ensures Descending(NewestFirst(files))
    decreases |files|
  {
    if files != [] {
      NewestFirstDescends(files[1..]);
      PlacedDescends(files[0], NewestFirst(files[1..]));
    }
  }

  // ---------------------------------------------------------------------------
  // The policy
  // ---------------------------------------------------------------------------

  const LIMITS: map<string, nat> := map["daily" := 7, "weekly" := 2, "monthly" := 6]

  predicate Unclassifiable(b: Backup) {
    b.unreadable || Stamp(b) == []
  }

  function Kind(b: Backup): string {
    if b.kind.Some? then b.kind.value else "daily"
  }

  function Day(b: Backup): string {
    Cut(Stamp(b), 10)
  }

  /** The backup counts towards a bucket. */
  predicate IsIn(b: Backup, bucket: string) {
    !Unclassifiable(b) && Kind(b) == bucket
  }

  ghost function Days(bs: seq<Backup>, bucket: string): set<string> {
    set i | 0 <= i < |bs| && IsIn(bs[i], bucket) :: Day(bs[i])
  }

  /** The days of a bucket after a given one. */
  ghost function LaterDays(bs: seq<Backup>, bucket: string, day: string): set<string> {
    set d | d in Days(bs, bucket) && d != day && NotAfter(day, d)
  }

  /** The listing's first backup of its bucket and day. */
  ghost predicate IsNewestOfDay(bs: seq<Backup>, i: nat)
    requires i < |bs|
  {
    forall j :: 0 <= j < i && IsIn(bs[j], Kind(bs[i])) ==> Day(bs[j]) != Day(bs[i])
  }

  /** What becomes of a backup, said without the loop: it is kept if it cannot be classified, or if it
      is the newest of its day and that day is one of the latest of its bucket. */
  ghost function VerdictOn(bs: seq<Backup>, i: nat): Verdict
    requires i < |bs|
  {
    var b := bs[i];
    if Unclassifiable(b) then Keep
    else if Kind(b) !in LIMITS then Leave
    else if IsNewestOfDay(bs, i) && |LaterDays(bs, Kind(b), Day(b))| < LIMITS[Kind(b)] then Keep
    else Drop
  }

  /** The ids of the first `n` backups with a given verdict, in order. */
  ghost function Ids(bs: seq<Backup>, n: nat, verdict: Verdict): seq<string>
    requires n <= |bs|
  {
    if n == 0 then []
    else Ids(bs, n - 1, verdict) + if VerdictOn(bs, n - 1) == verdict then [bs[n - 1].id] else []
  }

  /** What `days_kept` knows of a bucket: all the days so far, until the bucket is full. */
  ghost predicate Tracks(days: seq<string>, soFar: set<string>, limit: nat) {
    && |days| <= limit
    && (forall j, k :: 0 <= j < k < |days| ==> days[j] != days[k])
    && (forall d :: d in days ==> d in soFar)
    && (|days| < limit ==> forall d :: d in soFar ==> d in days)
  }

  /** `apply_retention_policy`, up to the removal of the files. */
  method ApplyRetention(files: seq<Backup>) returns (kept: seq<string>, deleted: seq<string>)
    ensures var bs := NewestFirst(files); kept == Ids(bs, |bs|, Keep) && deleted == Ids(bs, |bs|, Drop)
  {
    var backups := NewestFirst(files);
    NewestFirstDescends(files);
    kept, deleted := [], [];
    var daysKept: map<string, seq<string>> := map["daily" := [], "weekly" := [], "monthly" := []];
    for i := 0 to |backups|
      invariant kept == Ids(backups, i, Keep) && deleted == Ids(backups, i, Drop)
      invariant AllTrack(daysKept, backups, i)
    {
      var b := backups[i];
      VerdictAndNotes(backups, i, daysKept);
      if Unclassifiable(b) {
        kept := kept + [b.id];
      } else if Kind(b) in LIMITS {
        var days := daysKept[Kind(b)];
        if Day(b) in days {
          deleted := deleted + [b.id];
        } else if |days| < LIMITS[Kind(b)] {
          daysKept := daysKept[Kind(b) := days + [Day(b)]];
          kept := kept + [b.id];
        } else {
          deleted := deleted + [b.id];
        }
      }
    }
  }

  ghost predicate AllTrack(daysKept: map<string, seq<string>>, bs: seq<Backup>, n: nat) {
    && n <= |bs| && daysKept.Keys == LIMITS.Keys
    && forall t :: t in LIMITS ==> Tracks(daysKept[t], Days(bs[..n], t), LIMITS[t])
  }

  /** A day is noted if it is new and its bucket is not full. */
  function Noted(days: seq<string>, day: string, limit: nat): seq<string> {
    if day !in days && |days| < limit then days + [day] else days
  }

  lemma NotedTracks(days: seq<string>, soFar: set<string>, day: string, limit: nat)
    requires Tracks(days, soFar, limit)
    ensures Tracks(Noted(days, day, limit), soFar + {day}, limit)
  {
  }

  /** One turn of the loop keeps its notes right. */
  lemma Turn(bs: seq<Backup>, i: nat, daysKept: map<string, seq<string>>)
    requires i < |bs| && AllTrack(daysKept, bs, i)
    ensures !Unclassifiable(bs[i]) && Kind(bs[i]) in LIMITS ==>
              AllTrack(daysKept[Kind(bs[i]) := Noted(daysKept[Kind(bs[i])], Day(bs[i]), LIMITS[Kind(bs[i])])], bs, i + 1)
    ensures Unclassifiable(bs[i]) || Kind(bs[i]) !in LIMITS ==> AllTrack(daysKept, bs, i + 1)
  {
    var b := bs[i];
    DaysGrow(bs, i);
    if !Unclassifiable(b) && Kind(b) in LIMITS {
      NotedTracks(daysKept[Kind(b)], Days(bs[..i], Kind(b)), Day(b), LIMITS[Kind(b)]);
    }
  }

  lemma DaysGrow(bs: seq<Backup>, i: nat)
    requires i < |bs|
    ensures forall t :: Days(bs[..i + 1], t) == Days(bs[..i], t) + if IsIn(bs[i], t) then {Day(bs[i])} else {}
  {
    forall t ensures Days(bs[..i + 1], t) == Days(bs[..i], t) + if IsIn(bs[i], t) then {Day(bs[i])} else {} {
      var before, after := bs[..i], bs[..i + 1];
      assert forall j :: 0 <= j < i ==> after[j] == before[j];
      assert after[i] == bs[i];
    }
  }

  /** The days before a backup in the listing are not earlier than its own, and those after it not later. */
  lemma DaysDescend(bs: seq<Backup>, i: nat, bucket: string)
    requires Descending(bs) && i < |bs| && IsIn(bs[i], bucket)
    ensures forall d :: d in Days(bs[..i], bucket) && d != Day(bs[i]) ==> d in LaterDays(bs, bucket, Day(bs[i]))
    ensures LaterDays(bs, bucket, Day(bs[i])) <= Days(bs[..i], bucket)
  {
    var day := Day(bs[i]);
    forall d | d in Days(bs[..i], bucket) && d != day ensures d in LaterDays(bs, bucket, day) {
      var j :| 0 <= j < i && IsIn(bs[..i][j], bucket) && Day(bs[..i][j]) == d;
      assert bs[j] == bs[..i][j];
      CutKeepsOrder(Stamp(bs[i]), Stamp(bs[j]), 10);
    }
    forall d | d in LaterDays(bs, bucket, day) ensures d in Days(bs[..i], bucket) {
      var j :| 0 <= j < |bs| && IsIn(bs[j], bucket) && Day(bs[j]) == d;
      if j > i {
        CutKeepsOrder(Stamp(bs[j]), Stamp(bs[i]), 10);
        NotAfterIsTotal(d, day);
      }
      assert bs[..i][j] == bs[j];
    }
  }

  lemma {:induction false} DistinctDays(days: seq<string>)
    requires forall j, k :: 0 <= j < k < |days| ==> days[j] != days[k]
    ensures |set d | d in days| == |days|
    decreases |days|
  {
    if days != [] {
      var n := |days| - 1;
      DistinctDays(days[..n]);
      assert (set d | d in days) == (set d | d in days[..n]) + {days[n]};
    }
  }

  lemma {:induction false} SubsetIsNoLarger<T>(s: set<T>, t: set<T>)
    requires s <= t
    ensures |s| <= |t|
    decreases s
  {
    if s != {} {
      var x :| x in s;
      SubsetIsNoLarger(s - {x}, t - {x});
    }
  }

  /** The loop's three cases agree with the verdict. */
  lemma VerdictAtTurn(bs: seq<Backup>, i: nat, days: seq<string>)
    requires Descending(bs) && i < |bs| && !Unclassifiable(bs[i]) && Kind(bs[i]) in LIMITS
    requires Tracks(days, Days(bs[..i], Kind(bs[i])), LIMITS[Kind(bs[i])])
    ensures VerdictOn(bs, i) == if Day(bs[i]) !in days && |days| < LIMITS[Kind(bs[i])] then Keep else Drop
  {
    var b := bs[i];
    var bucket, day := Kind(b), Day(b);
    var later, seen := LaterDays(bs, bucket, day), set d | d in days;
    DaysDescend(bs, i, bucket);
    DistinctDays(days);
    if day in days {
      var j :| 0 <= j < i && IsIn(bs[..i][j], bucket) && Day(bs[..i][j]) == day;
      assert bs[j] == bs[..i][j];
      assert !IsNewestOfDay(bs, i);
    } else if |days| < LIMITS[bucket] {
      forall j | 0 <= j < i && IsIn(bs[j], bucket) ensures Day(bs[j]) != day {
        assert bs[..i][j] == bs[j];
        assert Day(bs[j]) in Days(bs[..i], bucket);
      }
      assert later <= seen;
      SubsetIsNoLarger(later, seen);
    } else {
      assert seen <= later;
      SubsetIsNoLarger(seen, later);
    }
  }

  /** What one turn decides, and the notes it leaves. */
  lemma VerdictAndNotes(bs: seq<Backup>, i: nat, daysKept: map<string, seq<string>>)
    requires Descending(bs) && i < |bs| && AllTrack(daysKept, bs, i)
    ensures Unclassifiable(bs[i]) ==> VerdictOn(bs, i) == Keep && AllTrack(daysKept, bs, i + 1)
    ensures !Unclassifiable(bs[i]) && Kind(bs[i]) !in LIMITS ==> VerdictOn(bs, i) == Leave && AllTrack(daysKept, bs, i + 1)
    ensures !Unclassifiable(bs[i]) && Kind(bs[i]) in LIMITS ==>
              var days, day := daysKept[Kind(bs[i])], Day(bs[i]);
              if day !in days && |days| < LIMITS[Kind(bs[i])]
              then VerdictOn(bs, i) == Keep && AllTrack(daysKept[Kind(bs[i]) := days + [day]], bs, i + 1)
              else VerdictOn(bs, i) == Drop && AllTrack(daysKept, bs, i + 1)
  {
    Turn(bs, i, daysKept);
    if !Unclassifiable(bs[i]) && Kind(bs[i]) in LIMITS {
      var days := daysKept[Kind(bs[i])];
      VerdictAtTurn(bs, i, days);
      assert daysKept[Kind(bs[i]) := days] == daysKept;
    }
  }

  // ---------------------------------------------------------------------------
  // Days are calendar days
  // ---------------------------------------------------------------------------

  function Digit(n: nat): char
    requires n < 10
  {
    (('0' as int) + n) as char
  }

  function TwoDigits(n: nat): (s: string)
    requires n < 100
    ensures |s| == 2
  {
    [Digit(n / 10), Digit(n % 10)]
  }

  /** `YYYY-MM-DD`. */
  function IsoDate(year: nat, month: nat, day: nat): (s: string)
    requires year < 10000 && month < 100 && day < 100
    ensures |s| == 10
  {
    TwoDigits(year / 100) + (TwoDigits(year % 100) + ("-" + (TwoDigits(month) + ("-" + TwoDigits(day)))))
  }

  /** Texts of one length are compared front first. */
  lemma {:induction false} NotAfterOfSum(a: string, b: string, x: string, y: string)
    requires |a| == |b|
    ensures NotAfter(a + x, b + y) <==> if a == b then NotAfter(x, y) else NotAfter(a, b)
    decreases |a|
  {
    if a == [] {
      assert a + x == x && b + y == y;
    } else {
      assert (a + x)[1..] == a[1..] + x && (b + y)[1..] == b[1..] + y;
      NotAfterOfSum(a[1..], b[1..], x, y);
      assert a == [a[0]] + a[1..] && b == [b[0]] + b[1..];
    }
  }

  lemma TwoDigitsInOrder(m: nat, n: nat)
    requires m < 100 && n < 100
    ensures (TwoDigits(m) == TwoDigits(n) <==> m == n) && (NotAfter(TwoDigits(m), TwoDigits(n)) <==> m <= n)
  {
    var a, b := TwoDigits(m), TwoDigits(n);
    assert a == [Digit(m / 10)] + [Digit(m % 10)] && b == [Digit(n / 10)] + [Digit(n % 10)];
    assert a[0] == b[0] && a[1] == b[1] ==> m == n;
    NotAfterOfSum([Digit(m / 10)], [Digit(n / 10)], [Digit(m % 10)], [Digit(n % 10)]);
    OneCharInOrder(Digit(m / 10), Digit(n / 10));
    OneCharInOrder(Digit(m % 10), Digit(n % 10));
  }

  lemma OneCharInOrder(c: char, d: char)
    ensures NotAfter([c], [d]) <==> c <= d
  {
    assert [c][1..] == [];
  }

  /** Dates written this way are in the order of the calendar. */
  lemma DatesInOrder(y: nat, m: nat, d: nat, y': nat, m': nat, d': nat)
    requires y < 10000 && m < 100 && d < 100 && y' < 10000 && m' < 100 && d' < 100
    ensures NotAfter(IsoDate(y, m, d), IsoDate(y', m', d')) <==> y < y' || (y == y' && (m < m' || (m == m' && d <= d')))
  {
    TwoDigitsInOrder(y / 100, y' / 100);
    TwoDigitsInOrder(y % 100, y' % 100);
    TwoDigitsInOrder(m, m');
    TwoDigitsInOrder(d, d');
    var day, day' := "-" + TwoDigits(d), "-" + TwoDigits(d');
    NotAfterOfSum("-", "-", TwoDigits(d), TwoDigits(d'));
    NotAfterOfSum(TwoDigits(m), TwoDigits(m'), day, day');
    NotAfterOfSum("-", "-", TwoDigits(m) + day, TwoDigits(m') + day');
    var rest, rest' := "-" + (TwoDigits(m) + day), "-" + (TwoDigits(m') + day');
    NotAfterOfSum(TwoDigits(y % 100), TwoDigits(y' % 100), rest, rest');
    NotAfterOfSum(TwoDigits(y / 100), TwoDigits(y' / 100), TwoDigits(y % 100) + rest, TwoDigits(y' % 100) + rest');
  }

  /** Backups stamped with a date and a time fall on one day exactly if the dates are the same, and a day is
      later exactly if its date is. */
  lemma DaysAreCalendarDays(a: Backup, b: Backup, y: nat, m: nat, d: nat, time: string, y': nat, m': nat, d': nat, time': string)
    requires y < 10000 && m < 100 && d < 100 && y' < 10000 && m' < 100 && d' < 100
    requires Stamp(a) == IsoDate(y, m, d) + time && Stamp(b) == IsoDate(y', m', d') + time'
    ensures Day(a) == Day(b) <==> y == y' && m == m' && d == d'
    ensures NotAfter(Day(a), Day(b)) <==> y < y' || (y == y' && (m < m' || (m == m' && d <= d')))
  {
    assert Day(a) == IsoDate(y, m, d) && Day(b) == IsoDate(y', m', d');
    DatesInOrder(y, m, d, y', m', d');
    DatesInOrder(y', m', d', y, m, d);
    NotAfterIsTotal(Day(a), Day(b));
  }

  // ---------------------------------------------------------------------------
  // What the verdicts amount to
  // ---------------------------------------------------------------------------

  /** Each of the latest days of a bucket keeps exactly one backup, and no backup of that day and bucket
      is newer; no other day keeps any. */
  lemma OneBackupPerDay(bs: seq<Backup>, bucket: string, day: string)
    requires Descending(bs) && bucket in LIMITS && day in Days(bs, bucket)
    ensures |LaterDays(bs, bucket, day)| < LIMITS[bucket] ==>
              exists i ::
                && 0 <= i < |bs| && IsIn(bs[i], bucket) && Day(bs[i]) == day && VerdictOn(bs, i) == Keep
                && forall j :: 0 <= j < |bs| && j != i && IsIn(bs[j], bucket) && Day(bs[j]) == day ==>
                     VerdictOn(bs, j) == Drop && NotAfter(Stamp(bs[j]), Stamp(bs[i]))
    ensures |LaterDays(bs, bucket, day)| >= LIMITS[bucket] ==>
              forall j :: 0 <= j < |bs| && IsIn(bs[j], bucket) && Day(bs[j]) == day ==> VerdictOn(bs, j) == Drop
  {
    if |LaterDays(bs, bucket, day)| < LIMITS[bucket] {
      var i := FirstOfDay(bs, bucket, day);
      assert VerdictOn(bs, i) == Keep;
      forall j | 0 <= j < |bs| && j != i && IsIn(bs[j], bucket) && Day(bs[j]) == day
        ensures VerdictOn(bs, j) == Drop && NotAfter(Stamp(bs[j]), Stamp(bs[i]))
      {
        assert !IsNewestOfDay(bs, j);
      }
    }
  }

  /** A classifiable backup is kept exactly if it is the newest of its day and at most six later days of daily
      backups exist, one of weekly, five of monthly ones. */
  lemma KeptExactly(bs: seq<Backup>, i: nat)
    requires i < |bs| && !Unclassifiable(bs[i])
    ensures VerdictOn(bs, i) == Keep <==>
            IsNewestOfDay(bs, i) &&
            (|| (Kind(bs[i]) == "daily" && |LaterDays(bs, "daily", Day(bs[i]))| <= 6)
             || (Kind(bs[i]) == "weekly" && |LaterDays(bs, "weekly", Day(bs[i]))| <= 1)
             || (Kind(bs[i]) == "monthly" && |LaterDays(bs, "monthly", Day(bs[i]))| <= 5))
  {
    var kind := Kind(bs[i]);
    assert LIMITS["daily"] == 7 && LIMITS["weekly"] == 2 && LIMITS["monthly"] == 6;
    assert kind in LIMITS <==> kind == "daily" || kind == "weekly" || kind == "monthly";
  }

  /** Nothing is deleted that cannot be classified: a backup whose metadata cannot be read or that has no time
      stamp is kept, one of an unknown type is left alone; one without a type counts as daily. */
  lemma UnclassifiableIsNotDeleted(bs: seq<Backup>, i: nat)
    requires i < |bs|
    ensures bs[i].unreadable || bs[i].createdAt.None? || bs[i].createdAt == Some([]) ==> VerdictOn(bs, i) == Keep
    ensures bs[i].kind.Some? && bs[i].kind.value != "daily" && bs[i].kind.value != "weekly" && bs[i].kind.value != "monthly" ==>
              VerdictOn(bs, i) != Drop
    ensures bs[i].kind.None? && VerdictOn(bs, i) == Drop ==> IsIn(bs[i], "daily")
  {
    var kind := Kind(bs[i]);
    assert kind in LIMITS <==> kind == "daily" || kind == "weekly" || kind == "monthly";
  }

  lemma {:induction false} FirstOfDay(bs: seq<Backup>, bucket: string, day: string) returns (i: nat)
    requires day in Days(bs, bucket)
    ensures i < |bs| && IsIn(bs[i], bucket) && Day(bs[i]) == day
    ensures forall j :: 0 <= j < i && IsIn(bs[j], bucket) ==> Day(bs[j]) != day
  {
    var k :| 0 <= k < |bs| && IsIn(bs[k], bucket) && Day(bs[k]) == day;
    i := 0;
    while !(IsIn(bs[i], bucket) && Day(bs[i]) == day)
      invariant 0 <= i <= k && forall j :: 0 <= j < i && IsIn(bs[j], bucket) ==> Day(bs[j]) != day
      decreases k - i
    {
      i := i + 1;
    }
  }

  /** Where the backups left by the policy stood among the first `n`. */
  ghost function Spared(bs: seq<Backup>, n: nat): (at: seq<nat>)
    requires n <= |bs|
    ensures forall k :: 0 <= k < |at| ==> at[k] < n && VerdictOn(bs, at[k]) != Drop
    ensures forall j, k :: 0 <= j < k < |at| ==> at[j] < at[k]
    ensures forall i :: 0 <= i < n && VerdictOn(bs, i) != Drop ==> i in at
  {
    if n == 0 then []
    else
      var before := Spared(bs, n - 1);
      if VerdictOn(bs, n - 1) == Drop then before else before + [n - 1]
  }

  /** The listing once the dropped backups are gone. */
  ghost function Left(bs: seq<Backup>): seq<Backup> {
    var at := Spared(bs, |bs|);
    seq(|at|, k requires 0 <= k < |at| => bs[at[k]])
  }

  /** Applying the policy again deletes nothing more. */
  lemma AgainDeletesNothing(bs: seq<Backup>, k: nat)
    requires Descending(bs) && k < |Left(bs)|
    ensures Descending(Left(bs)) && VerdictOn(Left(bs), k) != Drop
  {
    var left, at := Left(bs), Spared(bs, |bs|);
    var b := left[k];
    if !Unclassifiable(b) && Kind(b) in LIMITS {
      forall j | 0 <= j < k && IsIn(left[j], Kind(b)) ensures Day(left[j]) != Day(b) {
        assert left[j] == bs[at[j]] && at[j] < at[k];
      }
      var fewer, more := LaterDays(left, Kind(b), Day(b)), LaterDays(bs, Kind(b), Day(b));
      forall d | d in fewer ensures d in more {
        var j :| 0 <= j < |left| && IsIn(left[j], Kind(b)) && Day(left[j]) == d;
        assert left[j] == bs[at[j]];
      }
      SubsetIsNoLarger(fewer, more);
      assert VerdictOn(bs, at[k]) == Keep;
    }
  }
}
