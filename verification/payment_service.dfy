/** `PaymentService`: ordering, date filtering and summation over the
    payment history. A date is an integer timestamp; the cutoff that the
    source derives from the current clock is passed in. */
module PaymentService {
  import opened Results
  import opened Domain

  /** Ordered newest first, as the comparator `b - a` sorts. */
  predicate NewestFirst(s: seq<Payment>) {
    forall i, j :: 0 <= i < j < |s| ==> s[i].createdDate >= s[j].createdDate
  }

  /** The entries of `s` stamped exactly `date`, in their order in `s`. */
  function AtDate(s: seq<Payment>, date: int): seq<Payment> {
    if |s| == 0 then []
    else (if s[0].createdDate == date then [s[0]] else []) + AtDate(s[1..], date)
  }

  /** Places `p` in front of the first entry that is not newer than it. */
  function Insert(p: Payment, s: seq<Payment>): (r: seq<Payment>)
    requires NewestFirst(s)
    ensures |r| == |s| + 1
    ensures forall x :: x in r ==> x == p || x in s
    ensures NewestFirst(r)
    ensures multiset(r) == multiset(s) + multiset{p}
  {
    if |s| == 0 || s[0].createdDate <= p.createdDate then
      [p] + s
    else
      var t := Insert(p, s[1..]);
      var r := [s[0]] + t;
      assert s == [s[0]] + s[1..];
      assert forall j :: 1 <= j < |r| ==> r[j] == t[j - 1];
      assert forall j :: 0 <= j < |t| ==> t[j].createdDate <= s[0].createdDate by {
        forall j | 0 <= j < |t| ensures t[j].createdDate <= s[0].createdDate {
          assert t[j] in t;
          if t[j] != p {
            var k :| 0 <= k < |s[1..]| && s[1..][k] == t[j];
            assert s[k + 1] == t[j];
          }
        }
      }
      r
  }

  lemma AtDateCons(x: Payment, t: seq<Payment>, d: int)
    ensures AtDate([x] + t, d) == (if x.createdDate == d then [x] else []) + AtDate(t, d)
  {
    assert ([x] + t)[1..] == t;
  }

  /** Insertion puts `p` ahead of the entries sharing its date. */
  lemma {:induction false} InsertAtDate(p: Payment, s: seq<Payment>, d: int)
    requires NewestFirst(s)
    ensures AtDate(Insert(p, s), d)
         == (if p.createdDate == d then [p] else []) + AtDate(s, d)
    decreases |s|
  {
    if |s| == 0 || s[0].createdDate <= p.createdDate {
      AtDateCons(p, s, d);
    } else {
      InsertAtDate(p, s[1..], d);
      AtDateCons(s[0], Insert(p, s[1..]), d);
      AtDateCons(s[0], s[1..], d);
      assert s == [s[0]] + s[1..];
      if s[0].createdDate == d {
        assert p.createdDate != d;
      }
    }
  }

  /** The stable newest-first order `Array.prototype.sort` produces. */
  function SortNewestFirst(s: seq<Payment>): (r: seq<Payment>)
    ensures NewestFirst(r)
    ensures multiset(r) == multiset(s)
  {
    if |s| == 0 then []
    else
      assert s == [s[0]] + s[1..];
      Insert(s[0], SortNewestFirst(s[1..]))
  }

  /** Sorting keeps entries of equal date in their input order. */
  lemma {:induction false} SortIsStable(s: seq<Payment>, d: int)
    ensures AtDate(SortNewestFirst(s), d) == AtDate(s, d)
    decreases |s|
  {
    if |s| > 0 {
      SortIsStable(s[1..], d);
      InsertAtDate(s[0], SortNewestFirst(s[1..]), d);
      AtDateCons(s[0], s[1..], d);
      assert s == [s[0]] + s[1..];
    }
  }

  /** `getPaymentHistory`: the same payments, newest first; payments with
      equal dates keep their relative order. */
  function GetPaymentHistory(payments: seq<Payment>): (r: seq<Payment>)
    ensures |r| == |payments|
    ensures NewestFirst(r)
    ensures multiset(r) == multiset(payments)
    ensures forall d :: AtDate(r, d) == AtDate(payments, d)
  {
    var r := SortNewestFirst(payments);
    assert |r| == |multiset(r)|;
    assert forall d :: AtDate(r, d) == AtDate(payments, d) by {
      forall d ensures AtDate(r, d) == AtDate(payments, d) {
        SortIsStable(payments, d);
      }
    }
    r
  }

  /** Sorting an already sorted history changes nothing. */
  lemma {:induction false} SortedHistoryUnchanged(s: seq<Payment>)
    requires NewestFirst(s)
    ensures GetPaymentHistory(s) == s
    decreases |s|
  {
    if |s| > 0 {
      SortedHistoryUnchanged(s[1..]);
    }
  }

  /** `getRecentPayments`: the payments dated at or after `cutoff`. */
  function RecentPayments(payments: seq<Payment>, cutoff: int): (r: seq<Payment>)
    ensures |r| <= |payments|
    ensures forall i :: 0 <= i < |r| ==> r[i].createdDate >= cutoff
  {
    if |payments| == 0 then []
    else
      var rest := RecentPayments(payments[1..], cutoff);
      if payments[0].createdDate >= cutoff then [payments[0]] + rest else rest
  }

  /** The filter keeps exactly the entries at or after the cutoff. */
  lemma RecentPaymentsMembers(payments: seq<Payment>, cutoff: int)
    ensures forall p :: p in RecentPayments(payments, cutoff) <==> p in payments && p.createdDate >= cutoff
  {
    forall p ensures p in RecentPayments(payments, cutoff) <==> p in payments && p.createdDate >= cutoff {
      RecentCounts(payments, cutoff, p);
    }
  }

  /** Filtering is homomorphic for concatenation: it keeps the input order. */
  lemma {:induction false} RecentConcat(a: seq<Payment>, b: seq<Payment>, cutoff: int)
    ensures RecentPayments(a + b, cutoff) == RecentPayments(a, cutoff) + RecentPayments(b, cutoff)
    decreases |a|
  {
    if |a| == 0 {
      assert a + b == b;
    } else {
      assert (a + b)[1..] == a[1..] + b;
      RecentConcat(a[1..], b, cutoff);
    }
  }

  /** The filter keeps every qualifying entry as often as it occurs. */
  lemma {:induction false} RecentCounts(payments: seq<Payment>, cutoff: int, p: Payment)
    ensures multiset(RecentPayments(payments, cutoff))[p]
         == if p.createdDate >= cutoff then multiset(payments)[p] else 0
    decreases |payments|
  {
    if |payments| > 0 {
      RecentCounts(payments[1..], cutoff, p);
      assert payments == [payments[0]] + payments[1..];
    }
  }

  /** `calculateTotalEarnings`: a left-to-right sum, missing amounts as 0. */
  function TotalEarnings(payments: seq<Payment>): real {
    if |payments| == 0 then 0.0
    else TotalEarnings(payments[..|payments| - 1]) + AmountOrZero(payments[|payments| - 1])
  }

  lemma {:induction false} TotalConcat(a: seq<Payment>, b: seq<Payment>)
    ensures TotalEarnings(a + b) == TotalEarnings(a) + TotalEarnings(b)
    decreases |b|
  {
    if |b| == 0 {
      assert a + b == a;
    } else {
      assert (a + b)[..|a + b| - 1] == a + b[..|b| - 1];
      TotalConcat(a, b[..|b| - 1]);
    }
  }

  /** The total of a single payment, and of a payment in front of a list. */
  lemma TotalCons(p: Payment, s: seq<Payment>)
    ensures TotalEarnings([p] + s) == AmountOrZero(p) + TotalEarnings(s)
  {
    TotalConcat([p], s);
    assert [p][..0] == [];
  }

  /** Appending one payment adds its amount to the recent total exactly
      when it is recent. */
  lemma RecentTotalSnoc(s: seq<Payment>, p: Payment, cutoff: int)
    ensures TotalEarnings(RecentPayments(s + [p], cutoff))
         == TotalEarnings(RecentPayments(s, cutoff))
            + (if p.createdDate >= cutoff then AmountOrZero(p) else 0.0)
  {
    RecentConcat(s, [p], cutoff);
    TotalConcat(RecentPayments(s, cutoff), RecentPayments([p], cutoff));
    TotalCons(p, []);
    assert [p][1..] == [];
  }

  /** One more element of a prefix adds its amount when it is recent. */
  lemma RecentTotalPrefix(payments: seq<Payment>, i: nat, cutoff: int)
    requires i < |payments|
    ensures TotalEarnings(RecentPayments(payments[..i + 1], cutoff))
         == TotalEarnings(RecentPayments(payments[..i], cutoff))
            + (if payments[i].createdDate >= cutoff then AmountOrZero(payments[i]) else 0.0)
  {
    assert payments[..i + 1] == payments[..i] + [payments[i]];
    RecentTotalSnoc(payments[..i], payments[i], cutoff);
  }

  predicate NonNegativeAmounts(payments: seq<Payment>) {
    forall i :: 0 <= i < |payments| ==> AmountOrZero(payments[i]) >= 0.0
  }

  lemma {:induction false} TotalNonNegative(payments: seq<Payment>)
    requires NonNegativeAmounts(payments)
    ensures TotalEarnings(payments) >= 0.0
    decreases |payments|
  {
    if |payments| > 0 {
      TotalNonNegative(payments[..|payments| - 1]);
    }
  }

  /** Ordering the history does not change its total. */
  lemma {:induction false} HistoryKeepsTotal(payments: seq<Payment>)
    ensures TotalEarnings(GetPaymentHistory(payments)) == TotalEarnings(payments)
    decreases |payments|
  {
    if |payments| > 0 {
      assert GetPaymentHistory(payments) == Insert(payments[0], SortNewestFirst(payments[1..]));
      HistoryKeepsTotal(payments[1..]);
      InsertAddsAmount(payments[0], SortNewestFirst(payments[1..]));
      TotalCons(payments[0], payments[1..]);
      assert payments == [payments[0]] + payments[1..];
    }
  }

  lemma {:induction false} InsertAddsAmount(p: Payment, s: seq<Payment>)
    requires NewestFirst(s)
    ensures TotalEarnings(Insert(p, s)) == AmountOrZero(p) + TotalEarnings(s)
    decreases |s|
  {
    if |s| == 0 || s[0].createdDate <= p.createdDate {
      TotalCons(p, s);
    } else {
      InsertAddsAmount(p, s[1..]);
      TotalCons(s[0], Insert(p, s[1..]));
      TotalCons(s[0], s[1..]);
      assert s == [s[0]] + s[1..];
    }
  }

  /** With non-negative amounts a filtered total never exceeds the total. */
  lemma {:induction false} RecentTotalAtMostTotal(payments: seq<Payment>, cutoff: int)
    requires NonNegativeAmounts(payments)
    ensures 0.0 <= TotalEarnings(RecentPayments(payments, cutoff)) <= TotalEarnings(payments)
    decreases |payments|
  {
    if |payments| > 0 {
      var tail := payments[1..];
      RecentTotalAtMostTotal(tail, cutoff);
      TotalCons(payments[0], tail);
      TotalCons(payments[0], RecentPayments(tail, cutoff));
      assert payments == [payments[0]] + tail;
      assert AmountOrZero(payments[0]) >= 0.0;
    }
  }

  lemma RecentBound(payments: seq<Payment>, cutoff: int)
    ensures NonNegativeAmounts(payments) ==>
      0.0 <= TotalEarnings(RecentPayments(payments, cutoff)) <= TotalEarnings(payments)
  {
    if NonNegativeAmounts(payments) {
      RecentTotalAtMostTotal(payments, cutoff);
    }
  }

  datatype PaymentStats = PaymentStats(total: real, recent: real, average: real, count: nat)

  /** `total / count`, or 0 for an empty history. */
  function Average(total: real, count: nat): (a: real)
    ensures count > 0 ==> a * (count as real) == total
    ensures count == 0 ==> a == 0.0
    ensures total >= 0.0 ==> a >= 0.0
  {
    if count > 0 then total / (count as real) else 0.0
  }

  /** `getPaymentStats`, with the 30-day cutoff supplied by the caller. */
  function GetPaymentStats(payments: seq<Payment>, cutoff: int): (st: PaymentStats)
    ensures st.count == |payments|
    ensures st.total == TotalEarnings(payments)
    ensures st.recent == TotalEarnings(RecentPayments(payments, cutoff))
    ensures st.count == 0 ==> st.average == 0.0 && st.total == 0.0
    ensures st.average == Average(st.total, st.count)
    ensures NonNegativeAmounts(payments) ==> 0.0 <= st.recent <= st.total && st.average >= 0.0
  {
    var total := TotalEarnings(payments);
    var recent := TotalEarnings(RecentPayments(payments, cutoff));
    RecentBound(payments, cutoff);
    PaymentStats(total, recent, Average(total, |payments|), |payments|)
  }
}
