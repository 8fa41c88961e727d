/** The fixture files of the repository's tests (src/dream_candies.cpp,
    lines 175-220) and the runs its test cases expect of them. The fixtures
    are written with their codes as parameters: the customer codes c1, c2
    (CUST0000010231, CUST0000010235 in the tests) and the invoice codes
    n1, n2, n3 (IN0000001 .. IN0000003); every other field is as in the
    tests. Each test case is proved for any files laid out like the
    fixtures (FixtureLayout), and TestFixtures shows that the fixtures are. */
module Scenarios {
  import opened StringOrder
  import opened Records
  import opened Extraction
  import opened Properties

  /** The codes are comma-free and the codes of each kind are distinct. */
  predicate Codes(c1: string, c2: string, n1: string, n2: string, n3: string)
  {
    ',' !in c1 && ',' !in c2 && ',' !in n1 && ',' !in n2 && ',' !in n3 &&
    c1 != c2 && n1 != n2 && n1 != n3 && n2 != n3
  }

  function Seed(codes: seq<string>): seq<string>
  {
    if |codes| == 0 then [SEED_HEADER] else Seed(codes[..|codes| - 1]) + [Quote(codes[|codes| - 1])]
  }

  function CustomerFile(c1: string, c2: string): seq<string>
  {
    [CUSTOMER_HEADER,
     Quote(c1) + "," + "\"Maria\",\"Alba\"",
     Quote(c2) + "," + "\"George\",\"Lucas\""]
  }

  function InvoiceFile(c1: string, c2: string, n1: string, n2: string, n3: string): seq<string>
  {
    [INVOICE_HEADER,
     Quote(c1) + "," + Quote(n1) + ",\"105.50\",\"01-Jan-2016\"",
     Quote(c2) + "," + Quote(n2) + ",\"186.53\",\"01-Jan-2016\"",
     Quote(c1) + "," + Quote(n3) + ",\"114.14\",\"01-Feb-2016\""]
  }

  function ItemFile(n1: string, n2: string, n3: string): seq<string>
  {
    [ITEM_HEADER,
     Quote(n1) + "," + "\"MEIJI\",\"75.60\",\"100\"",
     Quote(n1) + "," + "\"POCKY\",\"10.40\",\"250\"",
     Quote(n1) + "," + "\"PUCCHO\",\"19.50\",\"40\"",
     Quote(n2) + "," + "\"MEIJI\",\"113.40\",\"150\"",
     Quote(n2) + "," + "\"PUCCHO\",\"73.13\",\"150\"",
     Quote(n3) + "," + "\"POCKY\",\"16.64\",\"400\"",
     Quote(n3) + "," + "\"PUCCHO\",\"97.50\",\"200\""]
  }


  // ---------------------------------------------------------------------
  // The layout of the fixtures

  /** A data line read with key k. */
  predicate Row(line: string, k: string)
  {
    line != "" && Key(line) == k
  }

  /** An invoice line of customer c with invoice code n. */
  predicate InvoiceRow(line: string, c: string, n: string)
  {
    Row(line, c) && SecondKeyReadable(line) && SecondKey(line) == n
  }

  /** Header, then the customers c1 and c2. */
  predicate CustomerLayout(f: seq<string>, c1: string, c2: string)
  {
    |f| == 3 && f[0] == CUSTOMER_HEADER && Row(f[1], c1) && Row(f[2], c2)
  }

  /** Header, then invoice n1 of c1, n2 of c2 and n3 of c1. */
  predicate InvoiceLayout(f: seq<string>, c1: string, c2: string, n1: string, n2: string, n3: string)
  {
    |f| == 4 && f[0] == INVOICE_HEADER &&
    InvoiceRow(f[1], c1, n1) && InvoiceRow(f[2], c2, n2) && InvoiceRow(f[3], c1, n3)
  }

  /** Header, then three items of n1, two of n2 and two of n3. */
  predicate ItemLayout(f: seq<string>, n1: string, n2: string, n3: string)
  {
    |f| == 8 && f[0] == ITEM_HEADER &&
    Row(f[1], n1) && Row(f[2], n1) && Row(f[3], n1) && Row(f[4], n2) &&
    Row(f[5], n2) && Row(f[6], n3) && Row(f[7], n3)
  }

  predicate FixtureLayout(cf: seq<string>, inf: seq<string>, itf: seq<string>,
                          c1: string, c2: string, n1: string, n2: string, n3: string)
  {
    c1 != c2 && n1 != n2 && n1 != n3 && n2 != n3 &&
    CustomerLayout(cf, c1, c2) && InvoiceLayout(inf, c1, c2, n1, n2, n3) && ItemLayout(itf, n1, n2, n3)
  }

  /** The lines s when b holds, no line otherwise. */
  function Pick(b: bool, s: seq<string>): seq<string>
  {
    if b then s else []
  }

  lemma Filter3(a: string, b: string, c: string, keys: set<string>)
    ensures Filter([a, b, c], keys) ==
      Pick(Selected(a, keys), [a]) + Pick(Selected(b, keys), [b]) + Pick(Selected(c, keys), [c])
    ensures Harvest([a, b, c], keys) ==
      Pick(Selected(a, keys), [SecondKey(a)]) + Pick(Selected(b, keys), [SecondKey(b)]) +
      Pick(Selected(c, keys), [SecondKey(c)])
  {
    assert [a, b, c][..2] == [a, b];
    assert [a, b][..1] == [a];
    assert [a][..0] == [];
    assert Filter([a], keys) == Pick(Selected(a, keys), [a]);
    assert Filter([a, b], keys) == Filter([a], keys) + Pick(Selected(b, keys), [b]);
    assert Harvest([a], keys) == Pick(Selected(a, keys), [SecondKey(a)]);
    assert Harvest([a, b], keys) == Harvest([a], keys) + Pick(Selected(b, keys), [SecondKey(b)]);
  }

  lemma Filter2(a: string, b: string, keys: set<string>)
    ensures Filter([a, b], keys) == Pick(Selected(a, keys), [a]) + Pick(Selected(b, keys), [b])
  {
    assert [a, b][..1] == [a];
    assert [a][..0] == [];
    assert Filter([a], keys) == Pick(Selected(a, keys), [a]);
  }

  /** Lines that share one key are copied all together or not at all. */
  lemma {:induction false} FilterGroup(g: seq<string>, k: string, keys: set<string>)
    requires forall i :: 0 <= i < |g| ==> g[i] != "" && Key(g[i]) == k
    ensures Filter(g, keys) == Pick(k in keys, g)
  {
    if |g| > 0 {
      FilterGroup(g[..|g| - 1], k, keys);
      assert g == g[..|g| - 1] + [g[|g| - 1]];
    }
  }

  /** The seed keys of a seed file are the codes it lists. */
  lemma {:induction false} SeedKeysOfSeed(codes: seq<string>)
    ensures FirstLine(Seed(codes)) == SEED_HEADER
    ensures SeedKeys(Seed(codes)) == Elems(codes)
  {
    if |codes| > 0 {
      var init := codes[..|codes| - 1];
      var last := codes[|codes| - 1];
      SeedKeysOfSeed(init);
      assert Data(Seed(codes)) == Data(Seed(init)) + [Quote(last)];
      UnquoteQuote(last);
      assert codes == init + [last];
      assert SeedKeys(Seed(codes)) == SeedKeys(Seed(init)) + {last};
    }
  }

  // ---------------------------------------------------------------------
  // Identities of sequence displays. They state nothing about the program:
  // each is a lemma of its own only so that the proofs below that use them
  // stay cheap for the solver.

  /** The data lines of an item file in its three groups. */
  lemma ItemParts(f: seq<string>)
    requires |f| == 8
    ensures Data(f) == [f[1], f[2], f[3]] + [f[4], f[5]] + [f[6], f[7]]
  {
  }

  /** A file is its header line followed by its data lines. */
  lemma WithHeader(file: seq<string>)
    requires |file| > 0
    ensures [FirstLine(file)] + Data(file) == file
  {
  }

  lemma Prepend0(h: string)
    ensures [h] + [] == [h]
  {
  }

  lemma Prepend1(h: string, a: string)
    ensures [h] + [a] == [h, a]
  {
  }

  lemma Prepend2(h: string, a: string, b: string)
    ensures [h] + [a, b] == [h, a, b]
  {
  }

  lemma Prepend5(h: string, a: string, b: string, c: string, d: string, e: string)
    ensures [h] + [a, b, c, d, e] == [h, a, b, c, d, e]
  {
  }

  lemma Lines3(a: string, b: string, c: string)
    ensures [a] + [b] + [c] == [a, b, c] && Elems([a, b, c]) == {a, b, c}
  {
  }

  lemma Lines2(a: string, c: string)
    ensures [a] + [] + [c] == [a, c] && Elems([a, c]) == {a, c}
  {
  }

  lemma Lines1(b: string)
    ensures [] + [b] + [] == [b] && Elems([b]) == {b}
  {
  }

  lemma Lines0()
    ensures Elems(Pick(false, []) + Pick(false, []) + Pick(false, [])) == {}
  {
  }

  lemma InvoiceData(f: seq<string>)
    requires |f| == 4
    ensures Data(f) == [f[1], f[2], f[3]]
  {
  }

  lemma Middle(a: string, b: string)
    ensures [] + [a, b] + [] == [a, b]
  {
  }

  lemma Ends(a: string, b: string, c: string, d: string, e: string)
    ensures [a, b, c] + [] + [d, e] == [a, b, c, d, e]
  {
  }

  // ---------------------------------------------------------------------
  // The keys the passes read from the fixture lines

  /** A fixture line starting with the quoted code k is read with key k. */
  lemma KeyedLine(k: string, rest: string)
    requires ',' !in k
    ensures Row(Quote(k) + "," + rest, k)
  {
    KeyOfRecord(k, rest);
  }

  /** A fixture invoice line of customer c with invoice code n. */
  lemma InvoiceLine(c: string, n: string, rest: string)
    requires ',' !in c && ',' !in n
    requires rest == "" || rest[0] == ','
    ensures InvoiceRow(Quote(c) + "," + Quote(n) + rest, c, n)
  {
    KeyOfRecord(c, Quote(n) + rest);
    assert Quote(c) + "," + Quote(n) + rest == Quote(c) + "," + (Quote(n) + rest);
    SecondKeyOfRecord(c, n, rest);
  }

  lemma CustomerFixture(c1: string, c2: string)
    requires ',' !in c1 && ',' !in c2
    ensures CustomerLayout(CustomerFile(c1, c2), c1, c2)
  {
    KeyedLine(c1, "\"Maria\",\"Alba\"");
    KeyedLine(c2, "\"George\",\"Lucas\"");
  }

  lemma InvoiceFixture(c1: string, c2: string, n1: string, n2: string, n3: string)
    requires Codes(c1, c2, n1, n2, n3)
    ensures InvoiceLayout(InvoiceFile(c1, c2, n1, n2, n3), c1, c2, n1, n2, n3)
  {
    var f := InvoiceFile(c1, c2, n1, n2, n3);
    InvoiceLine(c1, n1, ",\"105.50\",\"01-Jan-2016\"");
    assert InvoiceRow(f[1], c1, n1);
    InvoiceLine(c2, n2, ",\"186.53\",\"01-Jan-2016\"");
    assert InvoiceRow(f[2], c2, n2);
    InvoiceLine(c1, n3, ",\"114.14\",\"01-Feb-2016\"");
    assert InvoiceRow(f[3], c1, n3);
  }

  lemma ItemFixture(n1: string, n2: string, n3: string)
    requires ',' !in n1 && ',' !in n2 && ',' !in n3
    ensures ItemLayout(ItemFile(n1, n2, n3), n1, n2, n3)
  {
    KeyedLine(n1, "\"MEIJI\",\"75.60\",\"100\"");
    KeyedLine(n1, "\"POCKY\",\"10.40\",\"250\"");
    KeyedLine(n1, "\"PUCCHO\",\"19.50\",\"40\"");
    KeyedLine(n2, "\"MEIJI\",\"113.40\",\"150\"");
    KeyedLine(n2, "\"PUCCHO\",\"73.13\",\"150\"");
    KeyedLine(n3, "\"POCKY\",\"16.64\",\"400\"");
    KeyedLine(n3, "\"PUCCHO\",\"97.50\",\"200\"");
  }

  /** The fixture files of the tests have the layout the test cases rely on. */
  lemma TestFixtures(c1: string, c2: string, n1: string, n2: string, n3: string)
    requires Codes(c1, c2, n1, n2, n3)
    ensures FixtureLayout(CustomerFile(c1, c2), InvoiceFile(c1, c2, n1, n2, n3), ItemFile(n1, n2, n3), c1, c2, n1, n2, n3)
  {
    CustomerFixture(c1, c2);
    InvoiceFixture(c1, c2, n1, n2, n3);
    ItemFixture(n1, n2, n3);
  }

  // ---------------------------------------------------------------------
  // The fixtures can be read without a substr call throwing

  /** A line that starts with a quoted code has a non-empty first field. */
  lemma QuotedParsable(k: string, rest: string)
    ensures Parsable(Quote(k) + rest)
  {
    assert (Quote(k) + rest)[0] == '"';
  }

  /** Every code line of a seed file is non-empty. */
  lemma {:induction false} SeedLinesNonEmpty(codes: seq<string>)
    ensures forall i :: 1 <= i < |Seed(codes)| ==> Seed(codes)[i] != ""
  {
    if |codes| > 0 {
      var init := codes[..|codes| - 1];
      var last := codes[|codes| - 1];
      SeedLinesNonEmpty(init);
      var s := Seed(codes);
      assert s == Seed(init) + [Quote(last)];
      forall i | 1 <= i < |s|
        ensures s[i] != ""
      {
        if i < |Seed(init)| {
          assert s[i] == Seed(init)[i];
        } else {
          assert s[i] == Quote(last);
        }
      }
    }
  }

  lemma CustomerFileReadable(c1: string, c2: string)
    ensures MasterReadable(CustomerFile(c1, c2), CUSTOMER_HEADER)
  {
    var f := CustomerFile(c1, c2);
    QuotedParsable(c1, ",\"Maria\",\"Alba\"");
    QuotedParsable(c2, ",\"George\",\"Lucas\"");
    assert Data(f) == [f[1], f[2]];
  }

  /** The copied lines of a file laid out like the invoice fixture have a
      readable invoice code. */
  lemma InvoiceLayoutHarvestable(f: seq<string>, c1: string, c2: string, n1: string, n2: string, n3: string, keys: set<string>)
    requires InvoiceLayout(f, c1, c2, n1, n2, n3)
    ensures Harvestable(Data(f), keys)
  {
    assert Data(f) == [f[1], f[2], f[3]];
  }

  lemma InvoiceLinesParsable(f: seq<string>)
    requires |f| == 4 && Parsable(f[1]) && Parsable(f[2]) && Parsable(f[3])
    ensures AllParsable(Data(f))
  {
    assert Data(f) == [f[1], f[2], f[3]];
  }

  lemma InvoiceFileReadable(c1: string, c2: string, n1: string, n2: string, n3: string, keys: set<string>)
    requires Codes(c1, c2, n1, n2, n3)
    ensures InvoicesReadable(InvoiceFile(c1, c2, n1, n2, n3), keys)
  {
    var f := InvoiceFile(c1, c2, n1, n2, n3);
    InvoiceFixture(c1, c2, n1, n2, n3);
    InvoiceLayoutHarvestable(f, c1, c2, n1, n2, n3, keys);
    QuotedParsable(c1, "," + Quote(n1) + ",\"105.50\",\"01-Jan-2016\"");
    assert Parsable(f[1]);
    QuotedParsable(c2, "," + Quote(n2) + ",\"186.53\",\"01-Jan-2016\"");
    assert Parsable(f[2]);
    QuotedParsable(c1, "," + Quote(n3) + ",\"114.14\",\"01-Feb-2016\"");
    assert Parsable(f[3]);
    InvoiceLinesParsable(f);
  }

  lemma ItemFileReadable(n1: string, n2: string, n3: string)
    ensures MasterReadable(ItemFile(n1, n2, n3), ITEM_HEADER)
  {
    var f := ItemFile(n1, n2, n3);
    QuotedParsable(n1, ",\"MEIJI\",\"75.60\",\"100\"");
    QuotedParsable(n1, ",\"POCKY\",\"10.40\",\"250\"");
    QuotedParsable(n1, ",\"PUCCHO\",\"19.50\",\"40\"");
    QuotedParsable(n2, ",\"MEIJI\",\"113.40\",\"150\"");
    QuotedParsable(n2, ",\"PUCCHO\",\"73.13\",\"150\"");
    QuotedParsable(n3, ",\"POCKY\",\"16.64\",\"400\"");
    QuotedParsable(n3, ",\"PUCCHO\",\"97.50\",\"200\"");
    assert Data(f) == [f[1], f[2], f[3], f[4], f[5], f[6], f[7]];
  }

  /** Any seed file of codes and the three master fixtures meet what
      ExtractCustomerData needs of its inputs, and so do they with any of
      the master files missing. */
  lemma FixturesReadable(codes: seq<string>, c1: string, c2: string, n1: string, n2: string, n3: string)
    requires Codes(c1, c2, n1, n2, n3)
    ensures var sample, cf, inf, itf := Seed(codes), CustomerFile(c1, c2), InvoiceFile(c1, c2, n1, n2, n3), ItemFile(n1, n2, n3);
      Readable(sample, cf, inf, itf) && Readable(sample, [], inf, itf) &&
      Readable(sample, cf, [], itf) && Readable(sample, cf, inf, [])
  {
    SeedLinesNonEmpty(codes);
    CustomerFileReadable(c1, c2);
    InvoiceFileReadable(c1, c2, n1, n2, n3, SeedKeys(Seed(codes)));
    ItemFileReadable(n1, n2, n3);
  }

  // ---------------------------------------------------------------------
  // Each pass over the fixtures, for any key set

  lemma CustomerRun(f: seq<string>, c1: string, c2: string, keys: set<string>)
    requires CustomerLayout(f, c1, c2)
    ensures Filter(Data(f), keys) == Pick(c1 in keys, [f[1]]) + Pick(c2 in keys, [f[2]])
  {
    assert Data(f) == [f[1], f[2]];
    Filter2(f[1], f[2], keys);
    assert Selected(f[1], keys) == (c1 in keys);
    assert Selected(f[2], keys) == (c2 in keys);
  }

  lemma InvoiceRun(f: seq<string>, c1: string, c2: string, n1: string, n2: string, n3: string, keys: set<string>)
    requires InvoiceLayout(f, c1, c2, n1, n2, n3)
    ensures Filter(Data(f), keys) == Pick(c1 in keys, [f[1]]) + Pick(c2 in keys, [f[2]]) + Pick(c1 in keys, [f[3]])
    ensures Harvest(Data(f), keys) == Pick(c1 in keys, [n1]) + Pick(c2 in keys, [n2]) + Pick(c1 in keys, [n3])
  {
    assert Data(f) == [f[1], f[2], f[3]];
    Filter3(f[1], f[2], f[3], keys);
    assert Selected(f[1], keys) == (c1 in keys);
    assert Selected(f[2], keys) == (c2 in keys);
    assert Selected(f[3], keys) == (c1 in keys);
  }

  lemma Group3(a: string, b: string, c: string, k: string, keys: set<string>)
    requires Row(a, k) && Row(b, k) && Row(c, k)
    ensures Filter([a, b, c], keys) == Pick(k in keys, [a, b, c])
  {
    FilterGroup([a, b, c], k, keys);
  }

  lemma Group2(a: string, b: string, k: string, keys: set<string>)
    requires Row(a, k) && Row(b, k)
    ensures Filter([a, b], keys) == Pick(k in keys, [a, b])
  {
    FilterGroup([a, b], k, keys);
  }

  lemma ItemRun(f: seq<string>, n1: string, n2: string, n3: string, keys: set<string>)
    requires ItemLayout(f, n1, n2, n3)
    ensures Filter(Data(f), keys) ==
      Pick(n1 in keys, [f[1], f[2], f[3]]) + Pick(n2 in keys, [f[4], f[5]]) + Pick(n3 in keys, [f[6], f[7]])
  {
    var g1, g2, g3 := [f[1], f[2], f[3]], [f[4], f[5]], [f[6], f[7]];
    ItemParts(f);
    Group3(f[1], f[2], f[3], n1, keys);
    Group2(f[4], f[5], n2, keys);
    Group2(f[6], f[7], n3, keys);
    FilterAppend(g1, g2, keys);
    FilterAppend(g1 + g2, g3, keys);
  }

  /** A run whose four headers match, given what each pass copies. */
  lemma RunOf(sample: seq<string>, customers: seq<string>, invoices: seq<string>, items: seq<string>,
              keys: set<string>, customerRows: seq<string>, invoiceRows: seq<string>,
              invoiceKeys: set<string>, itemRows: seq<string>)
    requires FirstLine(sample) == SEED_HEADER && FirstLine(customers) == CUSTOMER_HEADER
    requires FirstLine(invoices) == INVOICE_HEADER && FirstLine(items) == ITEM_HEADER
    requires SeedKeys(sample) == keys
    requires Filter(Data(customers), keys) == customerRows
    requires Filter(Data(invoices), keys) == invoiceRows
    requires Elems(Harvest(Data(invoices), keys)) == invoiceKeys
    requires Filter(Data(items), invoiceKeys) == itemRows
    ensures Pipeline(sample, customers, invoices, items)
         == Outcome(true, [CUSTOMER_HEADER] + customerRows, [INVOICE_HEADER] + invoiceRows, [ITEM_HEADER] + itemRows)
  {
  }

  // ---------------------------------------------------------------------
  // The passes each test case makes

  lemma CustomersAll(cf: seq<string>, c1: string, c2: string)
    requires CustomerLayout(cf, c1, c2)
    ensures Filter(Data(cf), {c1, c2}) == Data(cf)
  {
    CustomerRun(cf, c1, c2, {c1, c2});
  }

  lemma CustomersFirst(cf: seq<string>, c1: string, c2: string)
    requires CustomerLayout(cf, c1, c2) && c1 != c2
    ensures Filter(Data(cf), {c1}) == [cf[1]]
  {
    CustomerRun(cf, c1, c2, {c1});
  }

  lemma CustomersSecond(cf: seq<string>, c1: string, c2: string)
    requires CustomerLayout(cf, c1, c2) && c1 != c2
    ensures Filter(Data(cf), {c2}) == [cf[2]]
  {
    CustomerRun(cf, c1, c2, {c2});
  }

  lemma CustomersNone(cf: seq<string>, c0: string, c1: string, c2: string)
    requires CustomerLayout(cf, c1, c2) && c0 != c1 && c0 != c2
    ensures Filter(Data(cf), {c0}) == []
  {
    CustomerRun(cf, c1, c2, {c0});
  }

  lemma InvoicesAll(inf: seq<string>, c1: string, c2: string, n1: string, n2: string, n3: string)
    requires InvoiceLayout(inf, c1, c2, n1, n2, n3)
    ensures Filter(Data(inf), {c1, c2}) == Data(inf)
    ensures Elems(Harvest(Data(inf), {c1, c2})) == {n1, n2, n3}
  {
    InvoiceRun(inf, c1, c2, n1, n2, n3, {c1, c2});
    InvoiceData(inf);
    Lines3(inf[1], inf[2], inf[3]);
    Lines3(n1, n2, n3);
  }

  lemma InvoicesFirst(inf: seq<string>, c1: string, c2: string, n1: string, n2: string, n3: string)
    requires InvoiceLayout(inf, c1, c2, n1, n2, n3) && c1 != c2
    ensures Filter(Data(inf), {c1}) == [inf[1], inf[3]]
    ensures Elems(Harvest(Data(inf), {c1})) == {n1, n3}
  {
    InvoiceRun(inf, c1, c2, n1, n2, n3, {c1});
    Lines2(inf[1], inf[3]);
    Lines2(n1, n3);
  }

  lemma InvoicesSecond(inf: seq<string>, c1: string, c2: string, n1: string, n2: string, n3: string)
    requires InvoiceLayout(inf, c1, c2, n1, n2, n3) && c1 != c2
    ensures Filter(Data(inf), {c2}) == [inf[2]]
    ensures Elems(Harvest(Data(inf), {c2})) == {n2}
  {
    InvoiceRun(inf, c1, c2, n1, n2, n3, {c2});
    Lines1(inf[2]);
    Lines1(n2);
  }

  lemma InvoicesNone(inf: seq<string>, c0: string, c1: string, c2: string, n1: string, n2: string, n3: string)
    requires InvoiceLayout(inf, c1, c2, n1, n2, n3) && c0 != c1 && c0 != c2
    ensures Filter(Data(inf), {c0}) == []
    ensures Elems(Harvest(Data(inf), {c0})) == {}
  {
    InvoiceRun(inf, c1, c2, n1, n2, n3, {c0});
    Lines0();
  }

  lemma ItemsAll(itf: seq<string>, n1: string, n2: string, n3: string)
    requires ItemLayout(itf, n1, n2, n3)
    ensures Filter(Data(itf), {n1, n2, n3}) == Data(itf)
  {
    ItemRun(itf, n1, n2, n3, {n1, n2, n3});
    ItemParts(itf);
  }

  lemma ItemsSecond(itf: seq<string>, n1: string, n2: string, n3: string)
    requires ItemLayout(itf, n1, n2, n3) && n1 != n2 && n2 != n3
    ensures Filter(Data(itf), {n2}) == [itf[4], itf[5]]
  {
    ItemRun(itf, n1, n2, n3, {n2});
    Middle(itf[4], itf[5]);
  }

  lemma ItemsFirstAndThird(itf: seq<string>, n1: string, n2: string, n3: string)
    requires ItemLayout(itf, n1, n2, n3) && n1 != n2 && n2 != n3
    ensures Filter(Data(itf), {n1, n3}) == [itf[1], itf[2], itf[3], itf[6], itf[7]]
  {
    ItemRun(itf, n1, n2, n3, {n1, n3});
    Ends(itf[1], itf[2], itf[3], itf[6], itf[7]);
  }

  lemma ItemsNone(itf: seq<string>, n1: string, n2: string, n3: string)
    requires ItemLayout(itf, n1, n2, n3)
    ensures Filter(Data(itf), {}) == []
  {
    ItemRun(itf, n1, n2, n3, {});
    Lines0();
  }

  lemma SeedOf1(c: string)
    ensures FirstLine(Seed([c])) == SEED_HEADER && SeedKeys(Seed([c])) == {c}
  {
    SeedKeysOfSeed([c]);
  }

  lemma SeedOf2(c1: string, c2: string)
    ensures FirstLine(Seed([c1, c2])) == SEED_HEADER && SeedKeys(Seed([c1, c2])) == {c1, c2}
  {
    SeedKeysOfSeed([c1, c2]);
  }

  lemma SeedOf3(c1: string, c2: string, c3: string)
    ensures FirstLine(Seed([c1, c2, c3])) == SEED_HEADER && SeedKeys(Seed([c1, c2, c3])) == {c1, c2, c3}
  {
    SeedKeysOfSeed([c1, c2, c3]);
  }

  // ---------------------------------------------------------------------
  // The test cases

  /** Test happy_path: both customers sampled, every line is extracted. */
  lemma HappyPath(cf: seq<string>, inf: seq<string>, itf: seq<string>,
                  c1: string, c2: string, n1: string, n2: string, n3: string)
    requires FixtureLayout(cf, inf, itf, c1, c2, n1, n2, n3)
    ensures Pipeline(Seed([c1, c2]), cf, inf, itf) == Outcome(true, cf, inf, itf)
  {
    SeedOf2(c1, c2);
    CustomersAll(cf, c1, c2);
    InvoicesAll(inf, c1, c2, n1, n2, n3);
    ItemsAll(itf, n1, n2, n3);
    WithHeader(cf);
    WithHeader(inf);
    WithHeader(itf);
    RunOf(Seed([c1, c2]), cf, inf, itf, {c1, c2}, Data(cf), Data(inf), {n1, n2, n3}, Data(itf));
  }

  /** Test subset_of_customers: only the second customer is sampled; one
      invoice and its two items are extracted. */
  lemma SubsetOfCustomers(cf: seq<string>, inf: seq<string>, itf: seq<string>,
                          c1: string, c2: string, n1: string, n2: string, n3: string)
    requires FixtureLayout(cf, inf, itf, c1, c2, n1, n2, n3)
    ensures Pipeline(Seed([c2]), cf, inf, itf)
         == Outcome(true, [CUSTOMER_HEADER, cf[2]], [INVOICE_HEADER, inf[2]], [ITEM_HEADER, itf[4], itf[5]])
  {
    SeedOf1(c2);
    CustomersSecond(cf, c1, c2);
    InvoicesSecond(inf, c1, c2, n1, n2, n3);
    ItemsSecond(itf, n1, n2, n3);
    Prepend1(CUSTOMER_HEADER, cf[2]);
    Prepend1(INVOICE_HEADER, inf[2]);
    Prepend2(ITEM_HEADER, itf[4], itf[5]);
    RunOf(Seed([c2]), cf, inf, itf, {c2}, [cf[2]], [inf[2]], {n2}, [itf[4], itf[5]]);
  }

  /** Test subset_of_customers2: only the first customer is sampled; two
      invoices and their five items are extracted. */
  lemma SubsetOfCustomers2(cf: seq<string>, inf: seq<string>, itf: seq<string>,
                           c1: string, c2: string, n1: string, n2: string, n3: string)
    requires FixtureLayout(cf, inf, itf, c1, c2, n1, n2, n3)
    ensures Pipeline(Seed([c1]), cf, inf, itf)
         == Outcome(true, [CUSTOMER_HEADER, cf[1]], [INVOICE_HEADER, inf[1], inf[3]],
                    [ITEM_HEADER, itf[1], itf[2], itf[3], itf[6], itf[7]])
  {
    SeedOf1(c1);
    CustomersFirst(cf, c1, c2);
    InvoicesFirst(inf, c1, c2, n1, n2, n3);
    ItemsFirstAndThird(itf, n1, n2, n3);
    Prepend1(CUSTOMER_HEADER, cf[1]);
    Prepend2(INVOICE_HEADER, inf[1], inf[3]);
    Prepend5(ITEM_HEADER, itf[1], itf[2], itf[3], itf[6], itf[7]);
    RunOf(Seed([c1]), cf, inf, itf, {c1}, [cf[1]], [inf[1], inf[3]], {n1, n3}, [itf[1], itf[2], itf[3], itf[6], itf[7]]);
  }

  /** Test duplicate_customer_codes: sampling the second customer twice
      around the first gives the same files as the happy path. */
  lemma DuplicateCustomerCodes(cf: seq<string>, inf: seq<string>, itf: seq<string>,
                               c1: string, c2: string, n1: string, n2: string, n3: string)
    requires FixtureLayout(cf, inf, itf, c1, c2, n1, n2, n3)
    ensures Pipeline(Seed([c2, c1, c2]), cf, inf, itf) == Outcome(true, cf, inf, itf)
  {
    SeedOf3(c2, c1, c2);
    assert {c2, c1, c2} == {c1, c2};
    CustomersAll(cf, c1, c2);
    InvoicesAll(inf, c1, c2, n1, n2, n3);
    ItemsAll(itf, n1, n2, n3);
    WithHeader(cf);
    WithHeader(inf);
    WithHeader(itf);
    RunOf(Seed([c2, c1, c2]), cf, inf, itf, {c1, c2}, Data(cf), Data(inf), {n1, n2, n3}, Data(itf));
  }

  /** Test no_matching_customers: a code of no customer gives three
      header-only files. */
  lemma NoMatchingCustomers(cf: seq<string>, inf: seq<string>, itf: seq<string>,
                            c0: string, c1: string, c2: string, n1: string, n2: string, n3: string)
    requires FixtureLayout(cf, inf, itf, c1, c2, n1, n2, n3)
    requires c0 != c1 && c0 != c2
    ensures Pipeline(Seed([c0]), cf, inf, itf) == Outcome(true, [CUSTOMER_HEADER], [INVOICE_HEADER], [ITEM_HEADER])
  {
    SeedOf1(c0);
    CustomersNone(cf, c0, c1, c2);
    InvoicesNone(inf, c0, c1, c2, n1, n2, n3);
    ItemsNone(itf, n1, n2, n3);
    Prepend0(CUSTOMER_HEADER);
    Prepend0(INVOICE_HEADER);
    Prepend0(ITEM_HEADER);
    RunOf(Seed([c0]), cf, inf, itf, {c0}, [], [], {}, []);
  }

  /** Tests incorrect_header_format, input_file_does_not_exist, empty_path
      and empty_input_file: a seed file that is missing, empty or headed
      otherwise fails the run before any file is written. */
  lemma BadSeed(sample: seq<string>, customers: seq<string>, invoices: seq<string>, items: seq<string>)
    requires sample == [] || sample == ["\"BAD_HEADER\"", "\"DATA1\"", "\"DATA2\""]
    ensures Pipeline(sample, customers, invoices, items) == Outcome(false, [], [], [])
  {
  }

  /** Test customer_file_does_not_exist: the run fails and writes nothing. */
  lemma MissingCustomerFile(sample: seq<string>, invoices: seq<string>, items: seq<string>)
    ensures Pipeline(sample, [], invoices, items) == Outcome(false, [], [], [])
  {
  }

  /** Test invoice_file_does_not_exist: the run fails after the customer
      file was extracted. */
  lemma MissingInvoiceFile(cf: seq<string>, itf: seq<string>, c1: string, c2: string)
    requires CustomerLayout(cf, c1, c2)
    ensures Pipeline(Seed([c1, c2]), cf, [], itf) == Outcome(false, cf, [], [])
  {
    SeedOf2(c1, c2);
    CustomersAll(cf, c1, c2);
    WithHeader(cf);
  }

  /** Test invoice_item_file_does_not_exist: the run fails although the
      customer and invoice files were extracted. */
  lemma MissingItemFile(cf: seq<string>, inf: seq<string>, c1: string, c2: string, n1: string, n2: string, n3: string)
    requires CustomerLayout(cf, c1, c2) && InvoiceLayout(inf, c1, c2, n1, n2, n3)
    ensures Pipeline(Seed([c1, c2]), cf, inf, []) == Outcome(false, cf, inf, [])
  {
    SeedOf2(c1, c2);
    CustomersAll(cf, c1, c2);
    InvoicesAll(inf, c1, c2, n1, n2, n3);
    WithHeader(cf);
    WithHeader(inf);
  }

  // ---------------------------------------------------------------------
  // The test cases on the tests' own fixture files

  lemma HappyPathOnFixtures(c1: string, c2: string, n1: string, n2: string, n3: string)
    requires Codes(c1, c2, n1, n2, n3)
    ensures Pipeline(Seed([c1, c2]), CustomerFile(c1, c2), InvoiceFile(c1, c2, n1, n2, n3), ItemFile(n1, n2, n3))
         == Outcome(true, CustomerFile(c1, c2), InvoiceFile(c1, c2, n1, n2, n3), ItemFile(n1, n2, n3))
  {
    TestFixtures(c1, c2, n1, n2, n3);
    HappyPath(CustomerFile(c1, c2), InvoiceFile(c1, c2, n1, n2, n3), ItemFile(n1, n2, n3), c1, c2, n1, n2, n3);
  }

  lemma SubsetOfCustomersOnFixtures(c1: string, c2: string, n1: string, n2: string, n3: string)
    requires Codes(c1, c2, n1, n2, n3)
    ensures var cf, inf, itf := CustomerFile(c1, c2), InvoiceFile(c1, c2, n1, n2, n3), ItemFile(n1, n2, n3);
      Pipeline(Seed([c2]), cf, inf, itf)
      == Outcome(true, [CUSTOMER_HEADER, cf[2]], [INVOICE_HEADER, inf[2]], [ITEM_HEADER, itf[4], itf[5]])
  {
    TestFixtures(c1, c2, n1, n2, n3);
    SubsetOfCustomers(CustomerFile(c1, c2), InvoiceFile(c1, c2, n1, n2, n3), ItemFile(n1, n2, n3), c1, c2, n1, n2, n3);
  }

  lemma SubsetOfCustomers2OnFixtures(c1: string, c2: string, n1: string, n2: string, n3: string)
    requires Codes(c1, c2, n1, n2, n3)
    ensures var cf, inf, itf := CustomerFile(c1, c2), InvoiceFile(c1, c2, n1, n2, n3), ItemFile(n1, n2, n3);
      Pipeline(Seed([c1]), cf, inf, itf)
      == Outcome(true, [CUSTOMER_HEADER, cf[1]], [INVOICE_HEADER, inf[1], inf[3]],
                 [ITEM_HEADER, itf[1], itf[2], itf[3], itf[6], itf[7]])
  {
    TestFixtures(c1, c2, n1, n2, n3);
    SubsetOfCustomers2(CustomerFile(c1, c2), InvoiceFile(c1, c2, n1, n2, n3), ItemFile(n1, n2, n3), c1, c2, n1, n2, n3);
  }

  lemma DuplicateCustomerCodesOnFixtures(c1: string, c2: string, n1: string, n2: string, n3: string)
    requires Codes(c1, c2, n1, n2, n3)
    ensures Pipeline(Seed([c2, c1, c2]), CustomerFile(c1, c2), InvoiceFile(c1, c2, n1, n2, n3), ItemFile(n1, n2, n3))
         == Outcome(true, CustomerFile(c1, c2), InvoiceFile(c1, c2, n1, n2, n3), ItemFile(n1, n2, n3))
  {
    TestFixtures(c1, c2, n1, n2, n3);
    DuplicateCustomerCodes(CustomerFile(c1, c2), InvoiceFile(c1, c2, n1, n2, n3), ItemFile(n1, n2, n3), c1, c2, n1, n2, n3);
  }

  lemma NoMatchingCustomersOnFixtures(c0: string, c1: string, c2: string, n1: string, n2: string, n3: string)
    requires Codes(c1, c2, n1, n2, n3) && c0 != c1 && c0 != c2
    ensures Pipeline(Seed([c0]), CustomerFile(c1, c2), InvoiceFile(c1, c2, n1, n2, n3), ItemFile(n1, n2, n3))
         == Outcome(true, [CUSTOMER_HEADER], [INVOICE_HEADER], [ITEM_HEADER])
  {
    TestFixtures(c1, c2, n1, n2, n3);
    NoMatchingCustomers(CustomerFile(c1, c2), InvoiceFile(c1, c2, n1, n2, n3), ItemFile(n1, n2, n3), c0, c1, c2, n1, n2, n3);
  }

  lemma MissingInvoiceFileOnFixtures(c1: string, c2: string, n1: string, n2: string, n3: string)
    requires Codes(c1, c2, n1, n2, n3)
    ensures Pipeline(Seed([c1, c2]), CustomerFile(c1, c2), [], ItemFile(n1, n2, n3))
         == Outcome(false, CustomerFile(c1, c2), [], [])
  {
    CustomerFixture(c1, c2);
    MissingInvoiceFile(CustomerFile(c1, c2), ItemFile(n1, n2, n3), c1, c2);
  }

  lemma MissingItemFileOnFixtures(c1: string, c2: string, n1: string, n2: string, n3: string)
    requires Codes(c1, c2, n1, n2, n3)
    ensures Pipeline(Seed([c1, c2]), CustomerFile(c1, c2), InvoiceFile(c1, c2, n1, n2, n3), [])
         == Outcome(false, CustomerFile(c1, c2), InvoiceFile(c1, c2, n1, n2, n3), [])
  {
    CustomerFixture(c1, c2);
    InvoiceFixture(c1, c2, n1, n2, n3);
    MissingItemFile(CustomerFile(c1, c2), InvoiceFile(c1, c2, n1, n2, n3), c1, c2, n1, n2, n3);
  }

  // ---------------------------------------------------------------------
  // The test cases run through ExtractCustomerData on the fixture files

  /** Test happy_path. */
  method HappyPathRun(c1: string, c2: string, n1: string, n2: string, n3: string)
    returns (ok: bool, customerOut: seq<string>, invoiceOut: seq<string>, itemOut: seq<string>)
    requires Codes(c1, c2, n1, n2, n3)
    ensures ok
    ensures customerOut == CustomerFile(c1, c2)
    ensures invoiceOut == InvoiceFile(c1, c2, n1, n2, n3)
    ensures itemOut == ItemFile(n1, n2, n3)
  {
    FixturesReadable([c1, c2], c1, c2, n1, n2, n3);
    HappyPathOnFixtures(c1, c2, n1, n2, n3);
    ok, customerOut, invoiceOut, itemOut :=
      ExtractCustomerData(Seed([c1, c2]), CustomerFile(c1, c2), InvoiceFile(c1, c2, n1, n2, n3), ItemFile(n1, n2, n3));
  }

  /** Tests incorrect_header_format, input_file_does_not_exist, empty_path
      and empty_input_file. */
  method BadSeedRun(sample: seq<string>, customers: seq<string>, invoices: seq<string>, items: seq<string>)
    returns (ok: bool, customerOut: seq<string>, invoiceOut: seq<string>, itemOut: seq<string>)
    requires sample == [] || sample == ["\"BAD_HEADER\"", "\"DATA1\"", "\"DATA2\""]
    ensures !ok
    ensures customerOut == [] && invoiceOut == [] && itemOut == []
  {
    BadSeed(sample, customers, invoices, items);
    ok, customerOut, invoiceOut, itemOut := ExtractCustomerData(sample, customers, invoices, items);
  }

  /** Test customer_file_does_not_exist. */
  method MissingCustomerFileRun(c1: string, c2: string, n1: string, n2: string, n3: string)
    returns (ok: bool, customerOut: seq<string>, invoiceOut: seq<string>, itemOut: seq<string>)
    requires Codes(c1, c2, n1, n2, n3)
    ensures !ok
    ensures customerOut == [] && invoiceOut == [] && itemOut == []
  {
    FixturesReadable([c1, c2], c1, c2, n1, n2, n3);
    MissingCustomerFile(Seed([c1, c2]), InvoiceFile(c1, c2, n1, n2, n3), ItemFile(n1, n2, n3));
    ok, customerOut, invoiceOut, itemOut :=
      ExtractCustomerData(Seed([c1, c2]), [], InvoiceFile(c1, c2, n1, n2, n3), ItemFile(n1, n2, n3));
  }

  /** Test invoice_file_does_not_exist. */
  method MissingInvoiceFileRun(c1: string, c2: string, n1: string, n2: string, n3: string)
    returns (ok: bool, customerOut: seq<string>, invoiceOut: seq<string>, itemOut: seq<string>)
    requires Codes(c1, c2, n1, n2, n3)
    ensures !ok
    ensures customerOut == CustomerFile(c1, c2) && invoiceOut == [] && itemOut == []
  {
    FixturesReadable([c1, c2], c1, c2, n1, n2, n3);
    MissingInvoiceFileOnFixtures(c1, c2, n1, n2, n3);
    ok, customerOut, invoiceOut, itemOut :=
      ExtractCustomerData(Seed([c1, c2]), CustomerFile(c1, c2), [], ItemFile(n1, n2, n3));
  }

  /** Test invoice_item_file_does_not_exist. */
  method MissingItemFileRun(c1: string, c2: string, n1: string, n2: string, n3: string)
    returns (ok: bool, customerOut: seq<string>, invoiceOut: seq<string>, itemOut: seq<string>)
    requires Codes(c1, c2, n1, n2, n3)
    ensures !ok
    ensures customerOut == CustomerFile(c1, c2) && invoiceOut == InvoiceFile(c1, c2, n1, n2, n3) && itemOut == []
  {
    FixturesReadable([c1, c2], c1, c2, n1, n2, n3);
    MissingItemFileOnFixtures(c1, c2, n1, n2, n3);
    ok, customerOut, invoiceOut, itemOut :=
      ExtractCustomerData(Seed([c1, c2]), CustomerFile(c1, c2), InvoiceFile(c1, c2, n1, n2, n3), []);
  }

  /** Test subset_of_customers. */
  method SubsetOfCustomersRun(c1: string, c2: string, n1: string, n2: string, n3: string)
    returns (ok: bool, customerOut: seq<string>, invoiceOut: seq<string>, itemOut: seq<string>)
    requires Codes(c1, c2, n1, n2, n3)
    ensures var cf, inf, itf := CustomerFile(c1, c2), InvoiceFile(c1, c2, n1, n2, n3), ItemFile(n1, n2, n3);
      ok && customerOut == [CUSTOMER_HEADER, cf[2]] && invoiceOut == [INVOICE_HEADER, inf[2]] &&
      itemOut == [ITEM_HEADER, itf[4], itf[5]]
  {
    FixturesReadable([c2], c1, c2, n1, n2, n3);
    SubsetOfCustomersOnFixtures(c1, c2, n1, n2, n3);
    ok, customerOut, invoiceOut, itemOut :=
      ExtractCustomerData(Seed([c2]), CustomerFile(c1, c2), InvoiceFile(c1, c2, n1, n2, n3), ItemFile(n1, n2, n3));
  }

  /** Test subset_of_customers2. */
  method SubsetOfCustomers2Run(c1: string, c2: string, n1: string, n2: string, n3: string)
    returns (ok: bool, customerOut: seq<string>, invoiceOut: seq<string>, itemOut: seq<string>)
    requires Codes(c1, c2, n1, n2, n3)
    ensures var cf, inf, itf := CustomerFile(c1, c2), InvoiceFile(c1, c2, n1, n2, n3), ItemFile(n1, n2, n3);
      ok && customerOut == [CUSTOMER_HEADER, cf[1]] && invoiceOut == [INVOICE_HEADER, inf[1], inf[3]] &&
      itemOut == [ITEM_HEADER, itf[1], itf[2], itf[3], itf[6], itf[7]]
  {
    FixturesReadable([c1], c1, c2, n1, n2, n3);
    SubsetOfCustomers2OnFixtures(c1, c2, n1, n2, n3);
    ok, customerOut, invoiceOut, itemOut :=
      ExtractCustomerData(Seed([c1]), CustomerFile(c1, c2), InvoiceFile(c1, c2, n1, n2, n3), ItemFile(n1, n2, n3));
  }

  /** Test duplicate_customer_codes. */
  method DuplicateCustomerCodesRun(c1: string, c2: string, n1: string, n2: string, n3: string)
    returns (ok: bool, customerOut: seq<string>, invoiceOut: seq<string>, itemOut: seq<string>)
    requires Codes(c1, c2, n1, n2, n3)
    ensures ok
    ensures customerOut == CustomerFile(c1, c2)
    ensures invoiceOut == InvoiceFile(c1, c2, n1, n2, n3)
    ensures itemOut == ItemFile(n1, n2, n3)
  {
    FixturesReadable([c2, c1, c2], c1, c2, n1, n2, n3);
    DuplicateCustomerCodesOnFixtures(c1, c2, n1, n2, n3);
    ok, customerOut, invoiceOut, itemOut :=
      ExtractCustomerData(Seed([c2, c1, c2]), CustomerFile(c1, c2), InvoiceFile(c1, c2, n1, n2, n3), ItemFile(n1, n2, n3));
  }

  /** Test no_matching_customers. */
  method NoMatchingCustomersRun(c0: string, c1: string, c2: string, n1: string, n2: string, n3: string)
    returns (ok: bool, customerOut: seq<string>, invoiceOut: seq<string>, itemOut: seq<string>)
    requires Codes(c1, c2, n1, n2, n3) && c0 != c1 && c0 != c2
    ensures ok
    ensures customerOut == [CUSTOMER_HEADER] && invoiceOut == [INVOICE_HEADER] && itemOut == [ITEM_HEADER]
  {
    FixturesReadable([c0], c1, c2, n1, n2, n3);
    NoMatchingCustomersOnFixtures(c0, c1, c2, n1, n2, n3);
    ok, customerOut, invoiceOut, itemOut :=
      ExtractCustomerData(Seed([c0]), CustomerFile(c1, c2), InvoiceFile(c1, c2, n1, n2, n3), ItemFile(n1, n2, n3));
  }
}
