/** What the presentation functions print: the account list with its formatted
    sort codes, the pots that are not deleted, the transactions newest first and
    the summary with its pot count.

    Each function yields the lines written to standard output and whether a
    panic stopped it part way (a sort code that cannot be sliced, or a currency code that
    `iso::find` does not know). Currency display is a parameter: `known(code)`
    says whether `iso::find(code)` finds the currency, and `show(amount, code)`
    is the `Display` of `Money::from_minor(amount, currency)`. */
module Printing {
  import opened Results
  import opened Text

  datatype Account = Account(id: string, accountNumber: string, sortCode: string)

  datatype Pot = Pot(name: string, balance: int, currency: string, deleted: bool)

  /** `created` is the already formatted `t.created.to_string()`. */
  datatype Transaction = Transaction(
    description: string,
    category: string,
    created: string,
    amount: int,
    currency: string,
    notes: string)

  datatype Balance = Balance(balance: int, totalBalance: int, currency: string)

  /** The lines printed, and whether a panic ended the printing. */
  datatype Output = Output(lines: seq<string>, panicked: bool)

  function Prepend(lines: seq<string>, o: Output): Output {
    Output(lines + o.lines, o.panicked)
  }

  // ---------------------------------------------------------------------
  // The shape of a `for_each` that prints one block per item
  // ---------------------------------------------------------------------

  /** Prints `block(x)` for each item in order; an item that is not `printable`
      panics before anything of its block is printed. */
  function Render<T>(items: seq<T>, printable: T -> bool, block: T -> seq<string>): Output {
    if items == [] then Output([], false)
    else if !printable(items[0]) then Output([], true)
    else Prepend(block(items[0]), Render(items[1..], printable, block))
  }

  /** The blocks of all items, one after the other. */
  function Blocks<T>(items: seq<T>, block: T -> seq<string>): seq<string> {
    if items == [] then [] else block(items[0]) + Blocks(items[1..], block)
  }

  /** When every item is printable, everything is printed and nothing panics. */
  lemma {:induction false} RenderComplete<T>(items: seq<T>, printable: T -> bool, block: T -> seq<string>)
    requires forall i :: 0 <= i < |items| ==> printable(items[i])
    ensures Render(items, printable, block) == Output(Blocks(items, block), false)
  {
    if items != [] {
      RenderComplete(items[1..], printable, block);
    }
  }

  /** At the first item that is not printable, the blocks before it have been
      printed and the panic follows. */
  lemma {:induction false} RenderStops<T>(items: seq<T>, printable: T -> bool, block: T -> seq<string>, k: nat)
    requires k < |items| && !printable(items[k])
    requires forall j :: 0 <= j < k ==> printable(items[j])
    ensures Render(items, printable, block) == Output(Blocks(items[..k], block), true)
  {
    if k > 0 {
      RenderStops(items[1..], printable, block, k - 1);
      assert items[..k][1..] == items[1..][..k - 1];
    }
  }

  /** Blocks of a fixed width `w` take `w` lines per item. */
  lemma {:induction false} BlocksLength<T>(items: seq<T>, block: T -> seq<string>, w: nat)
    requires forall i :: 0 <= i < |items| ==> |block(items[i])| == w
    ensures |Blocks(items, block)| == w * |items|
  {
    if items != [] {
      var rest := items[1..];
      assert forall i :: 0 <= i < |rest| ==> rest[i] == items[i + 1];
      BlocksLength(rest, block, w);
      assert w * |items| == w + w * |rest|;
    }
  }

  /** With blocks of a fixed width `w`, block `k` sits at lines `w*k` to `w*k + w`. */
  lemma {:induction false} BlocksAt<T>(items: seq<T>, block: T -> seq<string>, w: nat, k: nat)
    requires forall i :: 0 <= i < |items| ==> |block(items[i])| == w
    requires k < |items|
    ensures w * k + w <= |Blocks(items, block)|
    ensures Blocks(items, block)[w * k .. w * k + w] == block(items[k])
  {
    var rest := items[1..];
    var b0 := block(items[0]);
    var tail := Blocks(rest, block);
    assert Blocks(items, block) == b0 + tail;
    assert |b0| == w;
    if k == 0 {
      assert (b0 + tail)[0..w] == b0;
    } else {
      assert forall i :: 0 <= i < |rest| ==> rest[i] == items[i + 1];
      BlocksAt(rest, block, w, k - 1);
      var x := w * (k - 1);
      assert w * k == w + x;
      assert tail[x .. x + w] == block(items[k]);
      assert (b0 + tail)[w + x .. w + x + w] == tail[x .. x + w];
    }
  }

  // ---------------------------------------------------------------------
  // print_account_info
  // ---------------------------------------------------------------------

  /** `&sort_code[0..2]`, `[2..4]` and `[4..]` are byte ranges: they panic
      unless bytes 2 and 4 are character boundaries of the sort code. */
  predicate SortCodeSliceable(sc: string) {
    CharIndex(sc, 2).Some? && CharIndex(sc, 4).Some?
  }

  /** The sort code as bytes [0,2), '-', [2,4), '-', [4,end). */
  function SortCode(sc: string): string
    requires SortCodeSliceable(sc)
  {
    var i := CharIndex(sc, 2).value;
    var j := CharIndex(sc, 4).value;
    SortCodeBoundaries(sc);
    sc[..i] + "-" + sc[i..j] + "-" + sc[j..]
  }

  /** The formatted sort code is its characters in order, with a dash after
      the first two bytes and another after the next two bytes. */
  lemma SortCodeSplit(sc: string)
    requires SortCodeSliceable(sc)
    ensures exists i, j :: 0 <= i <= j <= |sc| && Utf8Length(sc[..i]) == 2 && Utf8Length(sc[i..j]) == 2
                           && SortCode(sc) == sc[..i] + "-" + sc[i..j] + "-" + sc[j..]
  {
    var i := CharIndex(sc, 2).value;
    var j := CharIndex(sc, 4).value;
    SortCodeBoundaries(sc);
    PrefixLengthMonotone(sc, i, j);
  }

  /** Byte 2 comes before byte 4. */
  lemma SortCodeBoundaries(sc: string)
    requires SortCodeSliceable(sc)
    ensures CharIndex(sc, 2).value <= CharIndex(sc, 4).value
  {
    var i := CharIndex(sc, 2).value;
    var j := CharIndex(sc, 4).value;
    if j < i {
      PrefixLengthMonotone(sc, j, i);
    }
  }

  /** On an ASCII sort code, bytes are characters: it can be sliced exactly
      when it has at least four characters, and is then split after the
      second and the fourth. */
  lemma AsciiSortCode(sc: string)
    requires IsAscii(sc)
    ensures SortCodeSliceable(sc) <==> |sc| >= 4
    ensures |sc| >= 4 ==> SortCodeSliceable(sc) && SortCode(sc) == sc[..2] + "-" + sc[2..4] + "-" + sc[4..]
  {
    forall i | 0 <= i <= |sc|
      ensures Utf8Length(sc[..i]) == i
    {
      assert IsAscii(sc[..i]);
      AsciiUtf8Length(sc[..i]);
    }
    if |sc| >= 4 {
      assert Utf8Length(sc[..2]) == 2 && Utf8Length(sc[..4]) == 4;
      var i := CharIndex(sc, 2).value;
      var j := CharIndex(sc, 4).value;
      assert i == 2 && j == 4;
    }
  }

  /** With a two-byte character first, `&sc[0..2]` holds that one character. */
  lemma WideFirstSortCode()
    ensures SortCode("\U{E9}1234") == "\U{E9}-12-34"
  {
  }

  /** Three two-byte characters can be sliced, one per part. */
  lemma ThreeWideSortCode()
    ensures SortCode("\U{E9}\U{E9}\U{E9}") == "\U{E9}-\U{E9}-\U{E9}"
  {
  }

  /** Byte 2 falling inside a character panics, though there are four characters. */
  lemma SplitCharSortCode()
    ensures !SortCodeSliceable("1\U{E9}34")
  {
  }

  function NumberLine(a: Account): string {
    "Account Number:\t" + a.accountNumber
  }

  /** The sort code line's value, or `None` when slicing the sort code panics. */
  function FormatSortCode(sc: string): (r: Option<string>)
    ensures r.Some? <==> SortCodeSliceable(sc)
    ensures r.Some? ==> r.value == SortCode(sc)
  {
    if SortCodeSliceable(sc) then Some(SortCode(sc)) else None
  }

  function SortCodeLine(formatted: string): string {
    "Sort code:\t" + formatted
  }

  /** The loop of `print_account_info` with the sort-code formatting `format`. */
  function AccountLinesWith(accounts: seq<Account>, format: string -> Option<string>): Output {
    if accounts == [] then Output([], false)
    else
      var a := accounts[0];
      match format(a.sortCode)
      case None => Output([NumberLine(a)], true)
      case Some(f) => Prepend([NumberLine(a), SortCodeLine(f)], AccountLinesWith(accounts[1..], format))
  }

  /** `print_account_info`: per account its number line, then its sort code line.
      The three slices are taken before the second line is written, so a sort
      code that cannot be sliced panics after the number line. */
  function AccountLines(accounts: seq<Account>): Output {
    AccountLinesWith(accounts, FormatSortCode)
  }

  /** Line `2k` and `2k + 1` after a leading pair are lines `2(k-1)` and `2(k-1) + 1` of the rest. */
  lemma PairShift(head: seq<string>, rest: seq<string>, k: nat)
    requires |head| == 2 && 0 < k && 2 * k + 1 < |head| + |rest|
    ensures (head + rest)[2 * k] == rest[2 * (k - 1)]
    ensures (head + rest)[2 * k + 1] == rest[2 * (k - 1) + 1]
  {
  }

  lemma {:induction false} PairsInOrder(accounts: seq<Account>, format: string -> Option<string>)
    requires forall i :: 0 <= i < |accounts| ==> format(accounts[i].sortCode).Some?
    ensures var o := AccountLinesWith(accounts, format);
            && !o.panicked && |o.lines| == 2 * |accounts|
            && forall k :: 0 <= k < |accounts| ==>
                 o.lines[2 * k] == NumberLine(accounts[k])
                 && o.lines[2 * k + 1] == SortCodeLine(format(accounts[k].sortCode).value)
  {
    if accounts != [] {
      var rest := accounts[1..];
      assert forall i :: 0 <= i < |rest| ==> rest[i] == accounts[i + 1];
      PairsInOrder(rest, format);
      var tail := AccountLinesWith(rest, format).lines;
      var head := [NumberLine(accounts[0]), SortCodeLine(format(accounts[0].sortCode).value)];
      var lines := AccountLinesWith(accounts, format).lines;
      assert lines == head + tail;
      forall k | 0 < k < |accounts|
        ensures lines[2 * k] == NumberLine(accounts[k])
        ensures lines[2 * k + 1] == SortCodeLine(format(accounts[k].sortCode).value)
      {
        PairShift(head, tail, k);
      }
    }
  }

  /** Every account prints two lines, in input order: its number, then its
      sort code split after its first two and its next two bytes. */
  lemma AccountLinesInOrder(accounts: seq<Account>)
    requires forall i :: 0 <= i < |accounts| ==> SortCodeSliceable(accounts[i].sortCode)
    ensures var o := AccountLines(accounts);
            && !o.panicked && |o.lines| == 2 * |accounts|
            && forall k :: 0 <= k < |accounts| ==>
                 o.lines[2 * k] == NumberLine(accounts[k])
                 && o.lines[2 * k + 1] == SortCodeLine(SortCode(accounts[k].sortCode))
  {
    PairsInOrder(accounts, FormatSortCode);
  }

  lemma {:induction false} PairsUntilPanic(accounts: seq<Account>, format: string -> Option<string>, k: nat)
    requires k < |accounts| && format(accounts[k].sortCode).None?
    requires forall j :: 0 <= j < k ==> format(accounts[j].sortCode).Some?
    ensures AccountLinesWith(accounts, format)
            == Output(AccountLinesWith(accounts[..k], format).lines + [NumberLine(accounts[k])], true)
  {
    if k > 0 {
      PairsUntilPanic(accounts[1..], format, k - 1);
      assert accounts[..k][1..] == accounts[1..][..k - 1];
    }
  }

  /** A sort code that cannot be sliced at account `k` (the first one) panics
      after the lines of the accounts before it and the number line of account `k`. */
  lemma AccountLinesSortCodePanics(accounts: seq<Account>, k: nat)
    requires k < |accounts| && !SortCodeSliceable(accounts[k].sortCode)
    requires forall j :: 0 <= j < k ==> SortCodeSliceable(accounts[j].sortCode)
    ensures AccountLines(accounts)
            == Output(AccountLines(accounts[..k]).lines + [NumberLine(accounts[k])], true)
  {
    PairsUntilPanic(accounts, FormatSortCode, k);
  }

  // ---------------------------------------------------------------------
  // print_pots and the pot count of print_summary
  // ---------------------------------------------------------------------

  /** `pots.iter().filter(|p| !p.deleted)`. */
  function OpenPots(pots: seq<Pot>): (r: seq<Pot>)
    ensures |r| <= |pots|
    ensures forall p :: p in r <==> p in pots && !p.deleted
  {
    if pots == [] then []
    else
      var rest := OpenPots(pots[1..]);
      assert forall p :: p in pots <==> p == pots[0] || p in pots[1..];
      (if pots[0].deleted then [] else [pots[0]]) + rest
  }

  /** The filter keeps relative order: it distributes over concatenation. */
  lemma {:induction false} OpenPotsAppend(a: seq<Pot>, b: seq<Pot>)
    ensures OpenPots(a + b) == OpenPots(a) + OpenPots(b)
  {
    if a != [] {
      assert (a + b)[1..] == a[1..] + b;
      OpenPotsAppend(a[1..], b);
    } else {
      assert a + b == b;
    }
  }

  /** The positions of the pots that are not deleted. */
  function OpenIndices(pots: seq<Pot>): set<int> {
    set i | 0 <= i < |pots| && !pots[i].deleted
  }

  /** Adding a pot at the end adds its position exactly when it is not deleted. */
  lemma OpenIndicesSnoc(init: seq<Pot>, last: Pot)
    ensures OpenIndices(init + [last])
            == OpenIndices(init) + (if last.deleted then {} else {|init|})
  {
  }

  /** `open_pots.count()` is the number of pots that are not deleted. */
  lemma {:induction false} OpenPotsCount(pots: seq<Pot>)
    ensures |OpenPots(pots)| == |OpenIndices(pots)|
    decreases |pots|
  {
    if pots == [] {
      assert OpenIndices(pots) == {};
    } else {
      var init := pots[..|pots| - 1];
      var last := pots[|pots| - 1];
      assert pots == init + [last];
      OpenPotsCount(init);
      OpenPotsAppend(init, [last]);
      OpenIndicesSnoc(init, last);
      assert OpenPots([last]) == (if last.deleted then [] else [last]) + OpenPots([]);
      assert |init| !in OpenIndices(init);
    }
  }

  function PotLine(p: Pot, show: (int, string) -> string): string {
    p.name + ":\t" + show(p.balance, p.currency)
  }

  function PotKnown(known: string -> bool): Pot -> bool {
    (p: Pot) => known(p.currency)
  }

  function PotBlock(show: (int, string) -> string): Pot -> seq<string> {
    (p: Pot) => [PotLine(p, show)]
  }

  /** `print_pots`: one line per pot that is not deleted, in input order. */
  function PotLines(pots: seq<Pot>, known: string -> bool, show: (int, string) -> string): Output {
    Render(OpenPots(pots), PotKnown(known), PotBlock(show))
  }

  /** Every pot kept by the filter has a currency `known` accepts. */
  lemma OpenPotsPrintable(pots: seq<Pot>, known: string -> bool)
    requires forall p :: p in pots && !p.deleted ==> known(p.currency)
    ensures forall i :: 0 <= i < |OpenPots(pots)| ==> PotKnown(known)(OpenPots(pots)[i])
  {
  }

  lemma PotBlockWidth(open: seq<Pot>, show: (int, string) -> string)
    ensures forall i :: 0 <= i < |open| ==> |PotBlock(show)(open[i])| == 1
  {
  }

  /** With known currencies, line `i` is pot `i` of the pots that are not
      deleted, and there are exactly as many lines as such pots. */
  lemma PotLinesPrinted(pots: seq<Pot>, known: string -> bool, show: (int, string) -> string)
    requires forall p :: p in pots && !p.deleted ==> known(p.currency)
    ensures var o := PotLines(pots, known, show);
            && !o.panicked
            && |o.lines| == |OpenPots(pots)| == |OpenIndices(pots)|
            && forall i :: 0 <= i < |o.lines| ==> o.lines[i] == PotLine(OpenPots(pots)[i], show)
  {
    var open := OpenPots(pots);
    var printable := PotKnown(known);
    var block := PotBlock(show);
    OpenPotsPrintable(pots, known);
    PotBlockWidth(open, show);
    RenderComplete(open, printable, block);
    BlocksLength(open, block, 1);
    OpenPotsCount(pots);
    var lines := Blocks(open, block);
    forall i | 0 <= i < |open|
      ensures lines[i] == PotLine(open[i], show)
    {
      BlocksAt(open, block, 1, i);
      assert lines[i .. i + 1] == [PotLine(open[i], show)];
      assert lines[i] == lines[i .. i + 1][0];
    }
  }

  // ---------------------------------------------------------------------
  // print_transactions
  // ---------------------------------------------------------------------

  /** `iter().rev()`. */
  function Reversed<T>(s: seq<T>): (r: seq<T>)
    ensures |r| == |s|
    ensures forall i :: 0 <= i < |s| ==> r[i] == s[|s| - 1 - i]
  {
    if s == [] then [] else [s[|s| - 1]] + Reversed(s[..|s| - 1])
  }

  /** The block printed for one transaction, ending in the empty line of `println!()`. */
  function TransactionBlock(t: Transaction, show: (int, string) -> string): (b: seq<string>)
    ensures |b| == 6 && b[5] == ""
  {
    [ "Description:\t" + t.description,
      "Category:\t" + t.category,
      "Date:\t" + t.created,
      "Amount:\t" + show(t.amount, t.currency),
      "Notes:\t" + t.notes,
      "" ]
  }

  function TransactionKnown(known: string -> bool): Transaction -> bool {
    (t: Transaction) => known(t.currency)
  }

  function TransactionBlocks(show: (int, string) -> string): Transaction -> seq<string> {
    (t: Transaction) => TransactionBlock(t, show)
  }

  /** `print_transactions`: the blocks of the transactions, last one first. */
  function TransactionLines(ts: seq<Transaction>, known: string -> bool, show: (int, string) -> string): Output {
    Render(Reversed(ts), TransactionKnown(known), TransactionBlocks(show))
  }

  /** With known currencies, block `k` of the output is transaction
      `|ts| - 1 - k` of the input, and every block ends with an empty line. */
  lemma TransactionsNewestFirst(ts: seq<Transaction>, known: string -> bool, show: (int, string) -> string)
    requires forall i :: 0 <= i < |ts| ==> known(ts[i].currency)
    ensures var o := TransactionLines(ts, known, show);
            && !o.panicked && |o.lines| == 6 * |ts|
            && forall k :: 0 <= k < |ts| ==>
                 o.lines[6 * k .. 6 * k + 6] == TransactionBlock(ts[|ts| - 1 - k], show)
                 && o.lines[6 * k + 5] == ""
  {
    var rev := Reversed(ts);
    var printable := TransactionKnown(known);
    var block := TransactionBlocks(show);
    forall i | 0 <= i < |rev|
      ensures printable(rev[i]) && |block(rev[i])| == 6
    {
      assert rev[i] == ts[|ts| - 1 - i];
    }
    RenderComplete(rev, printable, block);
    BlocksLength(rev, block, 6);
    var lines := Blocks(rev, block);
    forall k | 0 <= k < |ts|
      ensures lines[6 * k .. 6 * k + 6] == TransactionBlock(ts[|ts| - 1 - k], show)
      ensures lines[6 * k + 5] == ""
    {
      BlocksAt(rev, block, 6, k);
      assert rev[k] == ts[|ts| - 1 - k];
      assert lines[6 * k + 5] == lines[6 * k .. 6 * k + 6][5];
    }
  }

  // ---------------------------------------------------------------------
  // print_summary
  // ---------------------------------------------------------------------

  /** `print_summary`: the currency is looked up once, before anything is
      printed; the third line counts the pots that are not deleted. */
  function SummaryLines(balance: Balance, pots: seq<Pot>, known: string -> bool,
                        show: (int, string) -> string): (o: Output)
    ensures o.panicked <==> !known(balance.currency)
    ensures o.panicked ==> o.lines == []
    ensures !o.panicked ==>
              |o.lines| == 3 && o.lines[2] == "Number of Pots:\t\t\t" + Decimal(|OpenIndices(pots)|)
  {
    if !known(balance.currency) then Output([], true)
    else
      OpenPotsCount(pots);
      Output([ "Current account balance:\t" + show(balance.balance, balance.currency),
               "Total balance:\t\t\t" + show(balance.totalBalance, balance.currency),
               "Number of Pots:\t\t\t" + Decimal(|OpenPots(pots)|) ], false)
  }
}
