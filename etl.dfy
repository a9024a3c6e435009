/**
 * The cleaning stage of the customer ETL job: three filters applied in a
 * fixed order (drop rows without an email, keep the first row per customer
 * id, keep emails containing '@'), two derived columns (email domain, age
 * group) and the quality score. The data frame is a sequence of records;
 * reading and writing the data lake is outside the model.
 */
module Etl {
  import opened Wrappers
  import opened Seqs
  import opened Ratio

  /** One customer row; a missing email is `None` (pandas' null). */
  datatype Customer = Customer(
    customerId: int,
    name: string,
    age: int,
    email: Option<string>,
    city: string,
    joinDate: string)

  /** A cleaned row with its two derived columns. */
  datatype CleanCustomer = CleanCustomer(customer: Customer, emailDomain: string, ageGroup: string)

  /** How many rows each filter removed. */
  datatype CleaningReport = CleaningReport(nullRemoved: nat, duplicatesRemoved: nat, invalidRemoved: nat)

  predicate HasEmail(c: Customer) { c.email.Some? }

  /** `email.str.contains('@', na=False)`: a present email containing '@'. */
  predicate HasValidEmail(c: Customer) { c.email.Some? && '@' in c.email.value }

  /** Step 1: `df[df['email'].notna()]` keeps exactly the rows with an email, in order. */
  function DropNullEmails(rows: seq<Customer>): (r: seq<Customer>)
    ensures forall x :: x in r <==> x in rows && x.email.Some?
    ensures SubseqOf(r, rows)
    ensures |r| == |set i | 0 <= i < |rows| && rows[i].email.Some?|
  {
    FilterIsSubseq(rows, HasEmail);
    FilterCount(rows, HasEmail);
    assert Positions(rows, HasEmail) == set i | 0 <= i < |rows| && rows[i].email.Some?;
    Filter(rows, HasEmail)
  }

  /** Step 3: `df[df['email'].str.contains('@', na=False)]` keeps exactly the rows whose email has an '@', in order. */
  function KeepValidEmails(rows: seq<Customer>): (r: seq<Customer>)
    ensures forall x :: x in r <==> x in rows && HasValidEmail(x)
    ensures SubseqOf(r, rows)
    ensures |r| == |set i | 0 <= i < |rows| && HasValidEmail(rows[i])|
  {
    FilterIsSubseq(rows, HasValidEmail);
    FilterCount(rows, HasValidEmail);
    assert Positions(rows, HasValidEmail) == set i | 0 <= i < |rows| && HasValidEmail(rows[i]);
    Filter(rows, HasValidEmail)
  }

  /** Row `k` is the first row of `rows` with its customer id. */
  predicate FirstOfId(rows: seq<Customer>, k: int)
    requires 0 <= k < |rows|
  {
    forall j :: 0 <= j < k ==> rows[j].customerId != rows[k].customerId
  }

  /** The customer ids of the rows, in order. */
  function Ids(rows: seq<Customer>): (ids: seq<int>)
    ensures |ids| == |rows|
    ensures forall i :: 0 <= i < |rows| ==> ids[i] == rows[i].customerId
  {
    seq(|rows|, i requires 0 <= i < |rows| => rows[i].customerId)
  }

  /** `x` is the first row of `rows` with its id. */
  predicate IsFirstRow(rows: seq<Customer>, x: Customer)
  {
    exists k :: 0 <= k < |rows| && rows[k] == x && FirstOfId(rows, k)
  }

  /** Every kept row is the first row of `rows` with its id. */
  predicate KeepsFirsts(r: seq<Customer>, rows: seq<Customer>)
  {
    forall i :: 0 <= i < |r| ==> IsFirstRow(rows, r[i])
  }

  /** Every id of `rows` outside `seen` survives in `r`. */
  predicate CoversIds(r: seq<Customer>, rows: seq<Customer>, seen: set<int>)
  {
    forall k :: 0 <= k < |rows| && rows[k].customerId !in seen ==>
      exists i :: 0 <= i < |r| && r[i].customerId == rows[k].customerId
  }

  /** No row of `r` has an id in `seen`. */
  predicate AvoidsIds(r: seq<Customer>, seen: set<int>)
  {
    forall i :: 0 <= i < |r| ==> r[i].customerId !in seen
  }

  /**
   * `drop_duplicates(subset=['customer_id'])` scanning from the front, where
   * `seen` holds the ids already kept: a row is kept when its id is new.
   */
  function DedupFrom(rows: seq<Customer>, seen: set<int>): (r: seq<Customer>)
    ensures SubseqOf(r, rows)
    ensures Distinct(Ids(r))
    ensures AvoidsIds(r, seen)
    ensures KeepsFirsts(r, rows)
    ensures CoversIds(r, rows, seen)
  {
    if |rows| == 0 then []
    else if rows[0].customerId in seen then
      var r := DedupFrom(rows[1..], seen);
      SubseqDropHead(r, rows);
      KeepsFirstsSkip(rows, r, seen);
      CoversIdsSkip(rows, r, seen);
      r
    else
      var id := rows[0].customerId;
      var rest := DedupFrom(rows[1..], seen + {id});
      SubseqConsHead(rest, rows);
      DistinctIdsCons(rows[0], rest);
      KeepsFirstsCons(rows, rest);
      CoversIdsCons(rows, rest, seen);
      [rows[0]] + rest
  }

  lemma SubseqDropHead(r: seq<Customer>, rows: seq<Customer>)
    requires |rows| > 0 && SubseqOf(r, rows[1..])
    ensures SubseqOf(r, rows)
  {
  }

  lemma SubseqConsHead(rest: seq<Customer>, rows: seq<Customer>)
    requires |rows| > 0 && SubseqOf(rest, rows[1..])
    ensures SubseqOf([rows[0]] + rest, rows)
  {
    assert ([rows[0]] + rest)[1..] == rest;
  }

  lemma DistinctIdsCons(head: Customer, rest: seq<Customer>)
    requires Distinct(Ids(rest)) && AvoidsIds(rest, {head.customerId})
    ensures Distinct(Ids([head] + rest))
  {
    var r := [head] + rest;
    forall i, j | 0 <= i < j < |r|
      ensures Ids(r)[i] != Ids(r)[j]
    {
      if i > 0 {
        assert Ids(rest)[i - 1] != Ids(rest)[j - 1];
      } else {
        assert r[j] == rest[j - 1];
      }
    }
  }

  lemma KeepsFirstsSkip(rows: seq<Customer>, r: seq<Customer>, seen: set<int>)
    requires |rows| > 0 && rows[0].customerId in seen
    requires KeepsFirsts(r, rows[1..]) && AvoidsIds(r, seen)
    ensures KeepsFirsts(r, rows)
  {
    forall i | 0 <= i < |r|
      ensures IsFirstRow(rows, r[i])
    {
      assert IsFirstRow(rows[1..], r[i]);
      var k :| 0 <= k < |rows[1..]| && rows[1..][k] == r[i] && FirstOfId(rows[1..], k);
      assert rows[k + 1] == r[i];
      assert r[i].customerId !in seen;
      assert FirstOfId(rows, k + 1) by {
        forall j | 0 <= j < k + 1 ensures rows[j].customerId != rows[k + 1].customerId {
          if j > 0 {
            assert rows[j] == rows[1..][j - 1];
          }
        }
      }
    }
  }

  lemma KeepsFirstsCons(rows: seq<Customer>, rest: seq<Customer>)
    requires |rows| > 0
    requires KeepsFirsts(rest, rows[1..]) && AvoidsIds(rest, {rows[0].customerId})
    ensures KeepsFirsts([rows[0]] + rest, rows)
  {
    var r := [rows[0]] + rest;
    forall i | 0 <= i < |r|
      ensures IsFirstRow(rows, r[i])
    {
      if i == 0 {
        assert FirstOfId(rows, 0);
      } else {
        assert r[i] == rest[i - 1];
        assert IsFirstRow(rows[1..], rest[i - 1]);
        var k :| 0 <= k < |rows[1..]| && rows[1..][k] == rest[i - 1] && FirstOfId(rows[1..], k);
        assert rows[k + 1] == r[i];
        assert FirstOfId(rows, k + 1) by {
          forall j | 0 <= j < k + 1 ensures rows[j].customerId != rows[k + 1].customerId {
            if j > 0 {
              assert rows[j] == rows[1..][j - 1];
            }
          }
        }
      }
    }
  }

  lemma CoversIdsSkip(rows: seq<Customer>, r: seq<Customer>, seen: set<int>)
    requires |rows| > 0 && rows[0].customerId in seen
    requires CoversIds(r, rows[1..], seen)
    ensures CoversIds(r, rows, seen)
  {
    forall k | 0 <= k < |rows| && rows[k].customerId !in seen
      ensures exists i :: 0 <= i < |r| && r[i].customerId == rows[k].customerId
    {
      assert k > 0 && rows[1..][k - 1] == rows[k];
    }
  }

  lemma CoversIdsCons(rows: seq<Customer>, rest: seq<Customer>, seen: set<int>)
    requires |rows| > 0
    requires CoversIds(rest, rows[1..], seen + {rows[0].customerId})
    ensures CoversIds([rows[0]] + rest, rows, seen)
  {
    var r := [rows[0]] + rest;
    forall k | 0 <= k < |rows| && rows[k].customerId !in seen
      ensures exists i :: 0 <= i < |r| && r[i].customerId == rows[k].customerId
    {
      if rows[k].customerId == rows[0].customerId {
        assert r[0].customerId == rows[k].customerId;
      } else {
        assert rows[1..][k - 1] == rows[k];
        var i :| 0 <= i < |rest| && rest[i].customerId == rows[1..][k - 1].customerId;
        assert r[i + 1].customerId == rows[k].customerId;
      }
    }
  }

  /** An id in `seen` is not among the ids of rows that avoid `seen`. */
  lemma AvoidedIdAbsent(r: seq<Customer>, seen: set<int>, id: int)
    requires AvoidsIds(r, seen) && id in seen
    ensures id !in Ids(r)
  {
  }

  /**
   * The kept rows follow the order in which their ids first occur in the
   * frame, so a row repeated later never moves ahead of an earlier one.
   */
  lemma {:induction false} DedupFirstOccurrenceOrder(rows: seq<Customer>, seen: set<int>)
    ensures InFirstOccurrenceOrder(Ids(DedupFrom(rows, seen)), Ids(rows))
    decreases |rows|
  {
    if |rows| > 0 {
      var id := rows[0].customerId;
      if id in seen {
        DedupFirstOccurrenceOrder(rows[1..], seen);
        DedupSkipOrder(rows, seen);
      } else {
        DedupFirstOccurrenceOrder(rows[1..], seen + {id});
        DedupKeepOrder(rows, seen);
      }
    }
  }

  lemma IdsCons(rows: seq<Customer>)
    requires |rows| > 0
    ensures Ids(rows) == [rows[0].customerId] + Ids(rows[1..])
  {
  }

  lemma DedupSkipOrder(rows: seq<Customer>, seen: set<int>)
    requires |rows| > 0 && rows[0].customerId in seen
    requires InFirstOccurrenceOrder(Ids(DedupFrom(rows[1..], seen)), Ids(rows[1..]))
    ensures InFirstOccurrenceOrder(Ids(DedupFrom(rows, seen)), Ids(rows))
  {
    var id := rows[0].customerId;
    var r := DedupFrom(rows[1..], seen);
    assert DedupFrom(rows, seen) == r;
    var rIds, tailIds := Ids(r), Ids(rows[1..]);
    IdsCons(rows);
    AvoidedIdAbsent(r, seen, id);
    OrderPrependOther(rIds, tailIds, id);
  }

  lemma DedupKeepOrder(rows: seq<Customer>, seen: set<int>)
    requires |rows| > 0 && rows[0].customerId !in seen
    requires InFirstOccurrenceOrder(Ids(DedupFrom(rows[1..], seen + {rows[0].customerId})), Ids(rows[1..]))
    ensures InFirstOccurrenceOrder(Ids(DedupFrom(rows, seen)), Ids(rows))
  {
    var id := rows[0].customerId;
    var rest := DedupFrom(rows[1..], seen + {id});
    assert DedupFrom(rows, seen) == [rows[0]] + rest;
    var restIds, tailIds := Ids(rest), Ids(rows[1..]);
    IdsCons(rows);
    IdsCons([rows[0]] + rest);
    assert ([rows[0]] + rest)[1..] == rest;
    AvoidedIdAbsent(rest, seen + {id}, id);
    OrderPrependBoth(restIds, tailIds, id);
  }

  /**
   * Step 2: `drop_duplicates(subset=['customer_id'], keep='first')` keeps
   * the first row of every id, each id once, in the order the ids first occur.
   */
  function DropDuplicateIds(rows: seq<Customer>): (r: seq<Customer>)
    ensures SubseqOf(r, rows)
    ensures Distinct(Ids(r))
    ensures KeepsFirsts(r, rows)
    ensures CoversIds(r, rows, {})
    ensures InFirstOccurrenceOrder(Ids(r), Ids(rows))
    ensures forall x :: x in r <==> IsFirstRow(rows, x)
  {
    DedupFirstOccurrenceOrder(rows, {});
    var r := DedupFrom(rows, {});
    FirstsAreKept(r, rows);
    r
  }

  /** Two rows that are each the first of their id, with the same id, are the same row. */
  lemma FirstRowUnique(rows: seq<Customer>, x: Customer, y: Customer)
    requires IsFirstRow(rows, x) && IsFirstRow(rows, y) && x.customerId == y.customerId
    ensures x == y
  {
    var k :| 0 <= k < |rows| && rows[k] == x && FirstOfId(rows, k);
    var m :| 0 <= m < |rows| && rows[m] == y && FirstOfId(rows, m);
    if k < m {
      assert rows[k].customerId != rows[m].customerId;
    } else if m < k {
      assert rows[m].customerId != rows[k].customerId;
    }
  }

  /** Two different first rows have different ids. */
  lemma FirstRowsDiffer(rows: seq<Customer>, x: Customer, y: Customer)
    requires IsFirstRow(rows, x) && IsFirstRow(rows, y) && x != y
    ensures x.customerId != y.customerId
  {
    if x.customerId == y.customerId {
      FirstRowUnique(rows, x, y);
    }
  }

  /** Keeping only first rows and covering every id keeps exactly the first rows. */
  lemma FirstsAreKept(r: seq<Customer>, rows: seq<Customer>)
    requires KeepsFirsts(r, rows) && CoversIds(r, rows, {})
    ensures forall x :: x in r <==> IsFirstRow(rows, x)
  {
    forall x | IsFirstRow(rows, x) ensures x in r {
      var k :| 0 <= k < |rows| && rows[k] == x && FirstOfId(rows, k);
      var i :| 0 <= i < |r| && r[i].customerId == rows[k].customerId;
      FirstRowUnique(rows, r[i], x);
    }
  }

  /**
   * The three filters in their fixed order: nulls, then duplicates, then
   * malformed emails. The cleaned frame has only emails containing '@',
   * pairwise distinct customer ids, and is an order-preserving subsequence
   * of the raw frame. A row survives exactly when it is the first row of
   * its customer among the rows with an email and its own email has an '@',
   * so the cleaned frame has one row per such customer.
   */
  function CleanRows(raw: seq<Customer>): (clean: seq<Customer>)
    ensures forall i :: 0 <= i < |clean| ==> HasValidEmail(clean[i])
    ensures Distinct(Ids(clean))
    ensures SubseqOf(clean, raw)
    ensures |clean| <= |raw|
    ensures forall x :: x in clean <==> x in raw && HasValidEmail(x) && IsFirstRow(DropNullEmails(raw), x)
    ensures |clean| == |set x | x in raw && HasValidEmail(x) && IsFirstRow(DropNullEmails(raw), x)|
  {
    var s1 := DropNullEmails(raw);
    var s2 := DropDuplicateIds(s1);
    CleanStepsFacts(raw, s1, s2);
    CleanSurvivors(raw, s1, s2);
    KeepValidEmails(s2)
  }

  /** Which rows the three filters let through, and how many. */
  lemma CleanSurvivors(raw: seq<Customer>, s1: seq<Customer>, s2: seq<Customer>)
    requires s1 == DropNullEmails(raw) && s2 == DropDuplicateIds(s1)
    ensures var clean := KeepValidEmails(s2);
      && (forall x :: x in clean <==> x in raw && HasValidEmail(x) && IsFirstRow(s1, x))
      && |clean| == |set x | x in raw && HasValidEmail(x) && IsFirstRow(s1, x)|
  {
    var clean := KeepValidEmails(s2);
    forall x ensures x in clean <==> x in raw && HasValidEmail(x) && IsFirstRow(s1, x) {
      if IsFirstRow(s1, x) {
        var k :| 0 <= k < |s1| && s1[k] == x && FirstOfId(s1, k);
        assert x in s1;
      }
    }
    SubseqDistinctIds(clean, s2);
    DistinctIdsDistinctRows(clean);
    SetOfDistinct(clean, set x | x in raw && HasValidEmail(x) && IsFirstRow(s1, x));
  }

  /** A sequence without repetitions whose elements are exactly a set has that set's size. */
  lemma SetOfDistinct(s: seq<Customer>, xs: set<Customer>)
    requires Distinct(s) && forall x :: x in s <==> x in xs
    ensures |s| == |xs|
  {
    DistinctCardinality(s);
    assert (set x | x in s) == xs;
  }

  /** Rows with pairwise distinct ids are pairwise distinct. */
  lemma DistinctIdsDistinctRows(rows: seq<Customer>)
    requires Distinct(Ids(rows))
    ensures Distinct(rows)
  {
    forall i, j | 0 <= i < j < |rows| ensures rows[i] != rows[j] {
      assert Ids(rows)[i] != Ids(rows)[j];
    }
  }

  /**
   * A customer whose first row with an email has no '@' in it disappears
   * from the cleaned frame, whatever valid rows of theirs come later.
   */
  lemma CleanDropsInvalidFirstEmail(raw: seq<Customer>, k: nat)
    requires k < |DropNullEmails(raw)| && FirstOfId(DropNullEmails(raw), k)
    requires !HasValidEmail(DropNullEmails(raw)[k])
    ensures DropNullEmails(raw)[k].customerId !in Ids(CleanRows(raw))
  {
    var s1 := DropNullEmails(raw);
    var clean := CleanRows(raw);
    var id := s1[k].customerId;
    assert IsFirstRow(s1, s1[k]);
    forall i | 0 <= i < |clean| ensures Ids(clean)[i] != id {
      var x := clean[i];
      assert x in clean;
      assert x != s1[k];
      FirstRowsDiffer(s1, x, s1[k]);
    }
  }

  lemma CleanStepsFacts(raw: seq<Customer>, s1: seq<Customer>, s2: seq<Customer>)
    requires SubseqOf(s1, raw) && SubseqOf(s2, s1) && Distinct(Ids(s2))
    ensures var clean := KeepValidEmails(s2);
      && (forall i :: 0 <= i < |clean| ==> HasValidEmail(clean[i]))
      && Distinct(Ids(clean))
      && SubseqOf(clean, raw)
      && |clean| <= |raw|
  {
    var clean := KeepValidEmails(s2);
    SubseqTrans(s2, s1, raw);
    SubseqTrans(clean, s2, raw);
    SubseqElements(clean, raw);
    forall i | 0 <= i < |clean| ensures HasValidEmail(clean[i]) {
      assert clean[i] in clean;
    }
    SubseqDistinctIds(clean, s2);
  }

  /** Deleting rows keeps distinct ids distinct. */
  lemma {:induction false} SubseqDistinctIds(a: seq<Customer>, b: seq<Customer>)
    requires SubseqOf(a, b) && Distinct(Ids(b))
    ensures Distinct(Ids(a))
    decreases |b|
  {
    if |a| > 0 {
      assert Ids(b)[1..] == Ids(b[1..]);
      assert Distinct(Ids(b[1..]));
      if a[0] == b[0] && SubseqOf(a[1..], b[1..]) {
        SubseqDistinctIds(a[1..], b[1..]);
        SubseqElements(a[1..], b[1..]);
        forall i, j | 0 <= i < j < |a| ensures Ids(a)[i] != Ids(a)[j] {
          if i == 0 {
            assert a[j] == a[1..][j - 1] && a[j] in b[1..];
            var k :| 0 <= k < |b[1..]| && b[1..][k] == a[j];
            assert Ids(b)[0] != Ids(b)[k + 1];
          } else {
            assert Ids(a[1..])[i - 1] != Ids(a[1..])[j - 1];
          }
        }
      } else {
        SubseqDistinctIds(a, b[1..]);
      }
    }
  }

  /** Python's `s.split(c)`: the maximal pieces between occurrences of `c`. */
  function Split(s: string, c: char): (parts: seq<string>)
    ensures |parts| >= 1
    ensures forall i :: 0 <= i < |parts| ==> c !in parts[i]
    ensures Join(parts, [c]) == s
    ensures c in s <==> |parts| >= 2
  {
    if |s| == 0 then [""]
    else
      var rest := Split(s[1..], c);
      if s[0] == c then
        assert s == [c] + Join(rest, [c]);
        [""] + rest
      else
        JoinConsFirst(s[0], rest, [c]);
        assert s == [s[0]] + s[1..];
        [[s[0]] + rest[0]] + rest[1..]
  }

  lemma JoinConsFirst(ch: char, parts: seq<string>, sep: string)
    requires |parts| >= 1
    ensures Join([[ch] + parts[0]] + parts[1..], sep) == [ch] + Join(parts, sep)
  {
    var q := [[ch] + parts[0]] + parts[1..];
    assert q[1..] == parts[1..];
  }

  /**
   * `email.split('@')[1]`: the text between the first '@' and the next one
   * (or the end). It exists because the email contains '@'.
   */
  function EmailDomain(email: string): (domain: string)
    requires '@' in email
    ensures '@' !in domain
    ensures exists local, rest ::
      && email == local + "@" + domain + rest
      && '@' !in local
      && (rest == "" || rest[0] == '@')
  {
    var parts := Split(email, '@');
    SplitSecondPiece(email, '@');
    var rest := AfterSecondPiece(parts, '@');
    assert email == parts[0] + "@" + parts[1] + rest;
    parts[1]
  }

  /** What follows the second piece: nothing, or the separator and the remaining pieces. */
  function AfterSecondPiece(parts: seq<string>, c: char): (rest: string)
    requires |parts| >= 2
    ensures rest == "" || rest[0] == c
  {
    if |parts| == 2 then "" else [c] + Join(parts[2..], [c])
  }

  lemma JoinUnfold(parts: seq<string>, sep: string)
    requires |parts| >= 2
    ensures Join(parts, sep) == parts[0] + sep + Join(parts[1..], sep)
  {
  }

  /** A string containing `c` is its first piece, `c`, its second piece, and what follows. */
  lemma SplitSecondPiece(s: string, c: char)
    requires c in s
    ensures |Split(s, c)| >= 2
    ensures s == Split(s, c)[0] + [c] + Split(s, c)[1] + AfterSecondPiece(Split(s, c), c)
  {
    var parts := Split(s, c);
    JoinSecondPiece(parts, c);
  }

  /** Joined with `c`, two or more pieces read: the first, `c`, the second, and what follows. */
  lemma JoinSecondPiece(parts: seq<string>, c: char)
    requires |parts| >= 2
    ensures Join(parts, [c]) == parts[0] + [c] + parts[1] + AfterSecondPiece(parts, c)
  {
    JoinUnfold(parts, [c]);
    var first := parts[0] + [c];
    if |parts| == 2 {
      assert parts[1..] == [parts[1]];
      assert AfterSecondPiece(parts, c) == [];
      assert first + parts[1] + [] == first + parts[1];
    } else {
      JoinTail(parts, c);
      var rest := [c] + Join(parts[2..], [c]);
      assert AfterSecondPiece(parts, c) == rest;
      assert first + (parts[1] + rest) == first + parts[1] + rest;
    }
  }

  /** With three or more pieces, the pieces after the first join to the second, `c`, and the rest. */
  lemma JoinTail(parts: seq<string>, c: char)
    requires |parts| >= 3
    ensures Join(parts[1..], [c]) == parts[1] + ([c] + Join(parts[2..], [c]))
  {
    var tail := parts[1..];
    JoinUnfold(tail, [c]);
    assert tail[1..] == parts[2..];
  }

  /**
   * `age_to_group`: decade buckets up to "60+". Every age lands in one of the
   * five buckets; ages 20..59 land in their own decade, 60 and over in "60+",
   * and ages below 20 fall into "20-29" as written.
   */
  function AgeToGroup(age: int): (group: string)
    ensures group in AgeGroups
    ensures 20 <= age < 60 ==> group == AgeGroups[age / 10 - 2]
    ensures group == "60+" <==> age >= 60
    ensures age < 20 ==> group == "20-29"
  {
    if age < 30 then "20-29"
    else if age < 40 then "30-39"
    else if age < 50 then "40-49"
    else if age < 60 then "50-59"
    else "60+"
  }

  /** The ordered list of age buckets. */
  const AgeGroups: seq<string> := ["20-29", "30-39", "40-49", "50-59", "60+"]

  /** The buckets are monotone in the age: an older customer never lands in an earlier bucket. */
  lemma AgeToGroupMonotone(a: int, b: int)
    requires a <= b
    ensures AgeToGroup(a) in AgeGroups && AgeToGroup(b) in AgeGroups
    ensures exists i, j :: 0 <= i <= j < |AgeGroups| && AgeGroups[i] == AgeToGroup(a) && AgeGroups[j] == AgeToGroup(b)
  {
    var i := if a < 30 then 0 else if a < 40 then 1 else if a < 50 then 2 else if a < 60 then 3 else 4;
    var j := if b < 30 then 0 else if b < 40 then 1 else if b < 50 then 2 else if b < 60 then 3 else 4;
    assert AgeGroups[i] == AgeToGroup(a) && AgeGroups[j] == AgeToGroup(b);
  }

  /** Adds `email_domain` and `age_group` to one cleaned row. */
  function Enrich(c: Customer): (r: CleanCustomer)
    requires HasValidEmail(c)
    ensures r.customer == c
    ensures r.emailDomain == EmailDomain(c.email.value)
    ensures '@' !in r.emailDomain && exists local, rest ::
      && c.email.value == local + "@" + r.emailDomain + rest
      && '@' !in local
      && (rest == "" || rest[0] == '@')
    ensures r.ageGroup == AgeToGroup(c.age)
    ensures r.ageGroup == "60+" <==> c.age >= 60
  {
    CleanCustomer(c, EmailDomain(c.email.value), AgeToGroup(c.age))
  }

  /** The quality score: the cleaned share of the raw rows, in percent; no score for an empty frame (division by zero). */
  function QualityScore(totalRows: nat, cleanedRows: nat): (score: Option<real>)
    ensures score.None? <==> totalRows == 0
    ensures totalRows > 0 ==> score == Some(cleanedRows as real / totalRows as real * 100.0)
    ensures score.Some? && cleanedRows <= totalRows ==> 0.0 <= score.value <= 100.0
    ensures score.Some? && cleanedRows == totalRows ==> score.value == 100.0
  {
    if totalRows == 0 then None
    else
      FractionOfWhole(cleanedRows, totalRows);
      Some(cleanedRows as real / totalRows as real * 100.0)
  }

  /**
   * The transform step: `df_clean` goes through the three filters in order,
   * each removal is counted, the two derived columns are added, and the
   * quality score compares the cleaned and raw row counts.
   */
  method Transform(raw: seq<Customer>) returns (silver: seq<CleanCustomer>, report: CleaningReport, quality: Option<real>)
    ensures |silver| == |CleanRows(raw)|
    ensures forall i :: 0 <= i < |silver| ==>
      && HasValidEmail(CleanRows(raw)[i])
      && silver[i] == Enrich(CleanRows(raw)[i])
    ensures report.nullRemoved == |raw| - |DropNullEmails(raw)|
    ensures report.duplicatesRemoved == |DropNullEmails(raw)| - |DropDuplicateIds(DropNullEmails(raw))|
    ensures report.invalidRemoved == |DropDuplicateIds(DropNullEmails(raw))| - |CleanRows(raw)|
    ensures report.nullRemoved + report.duplicatesRemoved + report.invalidRemoved == |raw| - |silver|
    ensures quality == QualityScore(|raw|, |silver|)
    ensures raw != [] ==> quality.Some? && 0.0 <= quality.value <= 100.0
    ensures raw == [] ==> quality == None
  {
    var dfClean := raw;

    var before := |dfClean|;
    dfClean := DropNullEmails(dfClean);
    var nullRemoved := before - |dfClean|;

    before := |dfClean|;
    dfClean := DropDuplicateIds(dfClean);
    SubseqElements(dfClean, DropNullEmails(raw));
    var duplicatesRemoved := before - |dfClean|;

    before := |dfClean|;
    dfClean := KeepValidEmails(dfClean);
    var invalidRemoved := before - |dfClean|;

    report := CleaningReport(nullRemoved, duplicatesRemoved, invalidRemoved);
    silver := seq(|dfClean|, i requires 0 <= i < |dfClean| => Enrich(dfClean[i]));
    quality := QualityScore(|raw|, |dfClean|);
  }
}
