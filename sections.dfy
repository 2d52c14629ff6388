/** Transaction feed items and their classification into the two sections the transactions
    screen shows (`makeTransactionSectionData`). */
module Sections {
  import opened Wrappers

  datatype Direction = IN | OUT

  /** A feed item. Every field of the decoded record is optional; only `direction` matters
      here, the others are carried as payload. */
  datatype FeedItem = FeedItem(feedItemUid: Option<string>, categoryUid: Option<string>,
                               direction: Option<Direction>, transactionTime: Option<string>,
                               counterPartyName: Option<string>, reference: Option<string>)

  datatype TransactionSectionData = TransactionSectionData(header: string, items: seq<FeedItem>)

  datatype TransactionType = Income | Expense {
    function RawValue(): string {
      match this
      case Income => "income"
      case Expense => "expenses"
    }
  }

  function Upper(c: char): char {
    if 'a' <= c <= 'z' then (c as int - 32) as char else c
  }

  function Lower(c: char): char {
    if 'A' <= c <= 'Z' then (c as int + 32) as char else c
  }

  predicate IsUpperLetter(c: char) {
    'A' <= c <= 'Z'
  }

  predicate IsLowerLetter(c: char) {
    'a' <= c <= 'z'
  }

  predicate IsLetter(c: char) {
    IsUpperLetter(c) || IsLowerLetter(c)
  }

  /** Position `i` starts a word: it is the first position or follows a character that is not
      a letter (a space, a tab, a line break, punctuation or a digit). */
  predicate WordStart(s: string, i: nat)
    requires i < |s|
  {
    i == 0 || !IsLetter(s[i - 1])
  }

  /** Position `i` of `String.capitalized`: upper case at the start of a word, lower case
      elsewhere. */
  function CapitalizedAt(s: string, i: nat): char
    requires i < |s|
  {
    if WordStart(s, i) then Upper(s[i]) else Lower(s[i])
  }

  /** Changing case keeps letters letters and non-letters unchanged, and a character and its
      upper- or lower-case form are the same letter. */
  lemma CaseOfChar(c: char)
    ensures IsLetter(c) ==> IsUpperLetter(Upper(c)) && IsLowerLetter(Lower(c))
    ensures !IsLetter(c) ==> Upper(c) == c && Lower(c) == c
    ensures Lower(Upper(c)) == Lower(c) && Lower(Lower(c)) == Lower(c)
  {
  }

  /** Position `i` of `String.capitalized` is the same letter in the case its place in the
      word calls for, and a non-letter is left alone. */
  lemma CapitalizedAtCase(s: string, i: nat)
    requires i < |s|
    ensures IsLetter(CapitalizedAt(s, i)) <==> IsLetter(s[i])
    ensures Lower(CapitalizedAt(s, i)) == Lower(s[i])
    ensures !IsLetter(s[i]) ==> CapitalizedAt(s, i) == s[i]
    ensures IsLetter(s[i]) && WordStart(s, i) ==> IsUpperLetter(CapitalizedAt(s, i))
    ensures IsLetter(s[i]) && !WordStart(s, i) ==> IsLowerLetter(CapitalizedAt(s, i))
  {
    CaseOfChar(s[i]);
  }

  /** Every position of `String.capitalized` is as `CapitalizedAtCase` says. */
  lemma CapitalizedCase(s: string)
    ensures forall i :: 0 <= i < |s| ==>
      && (IsLetter(CapitalizedAt(s, i)) <==> IsLetter(s[i]))
      && Lower(CapitalizedAt(s, i)) == Lower(s[i])
      && (!IsLetter(s[i]) ==> CapitalizedAt(s, i) == s[i])
      && (IsLetter(s[i]) && WordStart(s, i) ==> IsUpperLetter(CapitalizedAt(s, i)))
      && (IsLetter(s[i]) && !WordStart(s, i) ==> IsLowerLetter(CapitalizedAt(s, i)))
  {
    forall i | 0 <= i < |s| {
      CapitalizedAtCase(s, i);
    }
  }

  /** `String.capitalized` on ASCII text: the first letter of every word in upper case, every
      other letter in lower case, where any non-letter ends a word. */
  function Capitalized(s: string): (r: string)
    ensures |r| == |s|
    ensures forall i :: 0 <= i < |s| ==> (IsLetter(r[i]) <==> IsLetter(s[i]))
    ensures forall i :: 0 <= i < |s| ==> Lower(r[i]) == Lower(s[i])
    ensures forall i :: 0 <= i < |s| && IsLetter(s[i]) && WordStart(s, i) ==>
      IsUpperLetter(r[i])
    ensures forall i :: 0 <= i < |s| && IsLetter(s[i]) && !WordStart(s, i) ==>
      IsLowerLetter(r[i])
    ensures forall i :: 0 <= i < |s| && !IsLetter(s[i]) ==> r[i] == s[i]
  {
    CapitalizedCase(s);
    seq(|s|, i requires 0 <= i < |s| => CapitalizedAt(s, i))
  }

  /** Words are broken by tabs, hyphens and digits as well as by spaces. */
  lemma CapitalizedWordBreaks()
    ensures Capitalized("a\tb") == "A\tB"
    ensures Capitalized("a-b") == "A-B"
    ensures Capitalized("1st") == "1St"
  {
    var t, h, d := Capitalized("a\tb"), Capitalized("a-b"), Capitalized("1st");
    assert t[0] == 'A' && t[1] == '\t' && t[2] == 'B';
    assert h[0] == 'A' && h[1] == '-' && h[2] == 'B';
    assert d[0] == '1' && d[1] == 'S' && d[2] == 't';
  }

  /** `items.filter { $0.direction == d }`. */
  function Filter(items: seq<FeedItem>, d: Direction): seq<FeedItem> {
    if items == [] then []
    else
      Filter(items[..|items| - 1], d)
      + (if items[|items| - 1].direction == Some(d) then [items[|items| - 1]] else [])
  }

  /** An item is kept exactly when it is in the input and has the direction. */
  lemma {:induction false} FilterMembers(items: seq<FeedItem>, d: Direction)
    ensures forall x :: x in Filter(items, d) <==> x in items && x.direction == Some(d)
  {
    if items != [] {
      var init, last := items[..|items| - 1], items[|items| - 1];
      FilterMembers(init, d);
      assert items == init + [last];
    }
  }

  /** The positions, in increasing order, of the items whose direction is `d`
      (`None` for items without a direction). */
  function Positions(items: seq<FeedItem>, d: Option<Direction>): (p: seq<nat>)
    ensures forall k :: 0 <= k < |p| ==> p[k] < |items|
    ensures forall k, l :: 0 <= k < l < |p| ==> p[k] < p[l]
    ensures forall i :: 0 <= i < |items| ==> (items[i].direction == d <==> i in p)
  {
    if items == [] then []
    else
      Positions(items[..|items| - 1], d)
      + (if items[|items| - 1].direction == d then [|items| - 1] else [])
  }

  /** Filtering one more item appends it when it has the direction. */
  lemma FilterSnoc(items: seq<FeedItem>, x: FeedItem, d: Direction)
    ensures Filter(items + [x], d) == Filter(items, d) + (if x.direction == Some(d) then [x] else [])
  {
    assert (items + [x])[..|items|] == items;
  }

  /** The filter is a stable selection: its k-th item is the input item at the k-th position
      whose direction is `d`, so it holds exactly those items, in their input order. */
  lemma {:induction false} FilterIsStableSelection(items: seq<FeedItem>, d: Direction)
    ensures |Filter(items, d)| == |Positions(items, Some(d))|
    ensures forall k :: 0 <= k < |Filter(items, d)| ==>
      Filter(items, d)[k] == items[Positions(items, Some(d))[k]]
  {
    if items != [] {
      var init, last := items[..|items| - 1], items[|items| - 1];
      FilterIsStableSelection(init, d);
      var f, p := Filter(init, d), Positions(init, Some(d));
      var r, q := Filter(items, d), Positions(items, Some(d));
      assert r == f + (if last.direction == Some(d) then [last] else []);
      assert q == p + (if last.direction == Some(d) then [|init|] else []);
      forall k | 0 <= k < |r| ensures r[k] == items[q[k]] {
        if k < |f| {
          assert r[k] == f[k] && q[k] == p[k];
          assert items[p[k]] == init[p[k]];
        } else {
          assert r[k] == last && q[k] == |init|;
        }
      }
    }
  }

  /** Every item has exactly one of the three directions IN, OUT or none. */
  lemma {:induction false} PositionsCover(items: seq<FeedItem>)
    ensures |Positions(items, Some(IN))| + |Positions(items, Some(OUT))|
            + |Positions(items, None)| == |items|
  {
    if items != [] {
      var init, last := items[..|items| - 1], items[|items| - 1];
      PositionsCover(init);
      assert |Positions(items, Some(IN))|
             == |Positions(init, Some(IN))| + (if last.direction == Some(IN) then 1 else 0);
      assert |Positions(items, Some(OUT))|
             == |Positions(init, Some(OUT))| + (if last.direction == Some(OUT) then 1 else 0);
      assert |Positions(items, None)|
             == |Positions(init, None)| + (if last.direction == None then 1 else 0);
      assert last.direction == None || last.direction.value == IN || last.direction.value == OUT;
    }
  }

  /** The Income header is the capitalized raw value of `income`. */
  lemma IncomeHeader()
    ensures Capitalized(Income.RawValue()) == "Income"
  {
    var h := Capitalized("income");
    assert h[0] == 'I' && h[1] == 'n' && h[2] == 'c' && h[3] == 'o' && h[4] == 'm' && h[5] == 'e';
  }

  /** The Expenses header is the capitalized raw value of `expense`. */
  lemma ExpensesHeader()
    ensures Capitalized(Expense.RawValue()) == "Expenses"
  {
    var h := Capitalized("expenses");
    assert h[0] == 'E' && h[1] == 'x' && h[2] == 'p' && h[3] == 'e';
    assert h[4] == 'n' && h[5] == 's' && h[6] == 'e' && h[7] == 's';
  }

  /** `makeTransactionSectionData`: an Income section and an Expenses section, in that order. */
  function MakeTransactionSectionData(items: seq<FeedItem>): (r: seq<TransactionSectionData>)
    ensures |r| == 2
    ensures r[0].header == "Income" && r[1].header == "Expenses"
    ensures forall x :: x in r[0].items <==> x in items && x.direction == Some(IN)
    ensures forall x :: x in r[1].items <==> x in items && x.direction == Some(OUT)
  {
    FilterMembers(items, IN);
    FilterMembers(items, OUT);
    var income := TransactionSectionData(Capitalized(Income.RawValue()), Filter(items, IN));
    var expenses := TransactionSectionData(Capitalized(Expense.RawValue()), Filter(items, OUT));
    IncomeHeader();
    ExpensesHeader();
    [income, expenses]
  }

  /** The sections partition the directed items: each holds the items of its direction in
      input order, no item is in both, and together they hold every item that has a
      direction, so only items without one are dropped. */
  lemma SectionsPartitionFeed(items: seq<FeedItem>)
    ensures var r := MakeTransactionSectionData(items);
      && |r[0].items| == |Positions(items, Some(IN))|
      && (forall k :: 0 <= k < |r[0].items| ==> r[0].items[k] == items[Positions(items, Some(IN))[k]])
      && |r[1].items| == |Positions(items, Some(OUT))|
      && (forall k :: 0 <= k < |r[1].items| ==> r[1].items[k] == items[Positions(items, Some(OUT))[k]])
      && (forall x :: !(x in r[0].items && x in r[1].items))
      && |r[0].items| + |r[1].items| == |items| - |Positions(items, None)|
  {
    FilterIsStableSelection(items, IN);
    FilterIsStableSelection(items, OUT);
    PositionsCover(items);
  }

  /** The sections' items are the two filters of the feed. */
  lemma SectionItems(items: seq<FeedItem>)
    ensures MakeTransactionSectionData(items)[0].items == Filter(items, IN)
    ensures MakeTransactionSectionData(items)[1].items == Filter(items, OUT)
  {
  }

  /** Filtering the feed `a, b, c, d, e` one item at a time, for either direction. */
  lemma FilterFive(a: FeedItem, b: FeedItem, c: FeedItem, d: FeedItem, e: FeedItem, dir: Direction)
    ensures Filter([a, b, c, d, e], dir)
            == Filter([], dir) + (if a.direction == Some(dir) then [a] else [])
               + (if b.direction == Some(dir) then [b] else [])
               + (if c.direction == Some(dir) then [c] else [])
               + (if d.direction == Some(dir) then [d] else [])
               + (if e.direction == Some(dir) then [e] else [])
  {
    var s1 := [] + [a];
    var s2 := s1 + [b];
    var s3 := s2 + [c];
    var s4 := s3 + [d];
    var s5 := s4 + [e];
    FilterSnoc([], a, dir);
    FilterSnoc(s1, b, dir);
    FilterSnoc(s2, c, dir);
    FilterSnoc(s3, d, dir);
    FilterSnoc(s4, e, dir);
    assert s5 == [a, b, c, d, e];
  }

  /** The two filters of the feed IN, OUT, IN, OUT, OUT. */
  lemma ClassifyFilters(a: FeedItem, b: FeedItem, c: FeedItem, d: FeedItem, e: FeedItem)
    requires a.direction == Some(IN) && b.direction == Some(OUT) && c.direction == Some(IN)
    requires d.direction == Some(OUT) && e.direction == Some(OUT)
    ensures Filter([a, b, c, d, e], IN) == [a, c]
    ensures Filter([a, b, c, d, e], OUT) == [b, d, e]
  {
    FilterFive(a, b, c, d, e, IN);
    FilterFive(a, b, c, d, e, OUT);
    assert Filter([], IN) == [] && Filter([], OUT) == [];
    assert [] + [a] + [] + [c] + [] + [] == [a, c];
    assert [] + [] + [b] + [] + [d] + [e] == [b, d, e];
  }

  /** Directions IN, OUT, IN, OUT, OUT: Income holds the first and third items, Expenses the
      second, fourth and fifth. */
  lemma ClassifyExample(a: FeedItem, b: FeedItem, c: FeedItem, d: FeedItem, e: FeedItem)
    requires a.direction == Some(IN) && b.direction == Some(OUT) && c.direction == Some(IN)
    requires d.direction == Some(OUT) && e.direction == Some(OUT)
    ensures MakeTransactionSectionData([a, b, c, d, e])[0].items == [a, c]
    ensures MakeTransactionSectionData([a, b, c, d, e])[1].items == [b, d, e]
  {
    SectionItems([a, b, c, d, e]);
    ClassifyFilters(a, b, c, d, e);
  }
}
