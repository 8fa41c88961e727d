/** What the extraction promises, proved of its specification: the filter
    copies exactly the matching lines in file order, the collected invoice
    codes line up with the copied invoice lines, and the pipeline's verdict,
    its failure behaviour, its transitive closure and its insensitivity to
    duplicate seed codes. */
module Properties {
  import opened StringOrder
  import opened Records
  import opened Extraction

  // ---------------------------------------------------------------------
  // The filter

  /** A line is in the output exactly when it is an input line that matches. */
  lemma {:induction false} FilterMember(lines: seq<string>, keys: set<string>, x: string)
    ensures x in Filter(lines, keys) <==> x in lines && Selected(x, keys)
  {
    if |lines| > 0 {
      var init := lines[..|lines| - 1];
      FilterMember(init, keys, x);
      assert lines == init + [lines[|lines| - 1]];
    }
  }

  /** Each matching line is copied as many times as it occurs, and no other
      line is copied. */
  lemma {:induction false} FilterCount(lines: seq<string>, keys: set<string>, x: string)
    ensures multiset(Filter(lines, keys))[x] == if Selected(x, keys) then multiset(lines)[x] else 0
  {
    if |lines| > 0 {
      var init := lines[..|lines| - 1];
      FilterCount(init, keys, x);
      assert lines == init + [lines[|lines| - 1]];
    }
  }

  /** Filtering a file in two parts: the output of the first part comes
      first, so the output keeps the order of the file. */
  lemma {:induction false} FilterAppend(a: seq<string>, b: seq<string>, keys: set<string>)
    ensures Filter(a + b, keys) == Filter(a, keys) + Filter(b, keys)
  {
    if |b| > 0 {
      var init := b[..|b| - 1];
      FilterAppend(a, init, keys);
      assert a + b == (a + init) + [b[|b| - 1]];
      assert (a + b)[..|a + b| - 1] == a + init;
    } else {
      assert a + b == a;
    }
  }

  /** Permuting the rows of a master file permutes the copied rows and
      copies the same rows as often. */
  lemma FilterPermutation(a: seq<string>, b: seq<string>, keys: set<string>)
    requires multiset(a) == multiset(b)
    ensures multiset(Filter(a, keys)) == multiset(Filter(b, keys))
  {
    forall x
      ensures multiset(Filter(a, keys))[x] == multiset(Filter(b, keys))[x]
    {
      FilterCount(a, keys, x);
      FilterCount(b, keys, x);
    }
  }

  /** A file with no matching line gives no data lines, and conversely. */
  lemma FilterEmpty(lines: seq<string>, keys: set<string>)
    ensures Filter(lines, keys) == [] <==> forall i :: 0 <= i < |lines| ==> !Selected(lines[i], keys)
  {
    if Filter(lines, keys) == [] {
      forall i | 0 <= i < |lines|
        ensures !Selected(lines[i], keys)
      {
        FilterMember(lines, keys, lines[i]);
      }
    } else {
      var x := Filter(lines, keys)[0];
      FilterMember(lines, keys, x);
    }
  }

  // ---------------------------------------------------------------------
  // The harvest

  /** The collected invoice codes are, position by position, the second keys
      of the copied invoice lines. */
  lemma {:induction false} HarvestAligned(lines: seq<string>, keys: set<string>)
    ensures |Harvest(lines, keys)| == |Filter(lines, keys)|
    ensures forall i :: 0 <= i < |Harvest(lines, keys)| ==> Harvest(lines, keys)[i] == SecondKey(Filter(lines, keys)[i])
  {
    if |lines| > 0 {
      HarvestAligned(lines[..|lines| - 1], keys);
    }
  }

  /** A collected invoice code comes from some copied invoice line. */
  lemma HarvestSource(lines: seq<string>, keys: set<string>, code: string)
    requires code in Harvest(lines, keys)
    ensures exists j :: 0 <= j < |lines| && Selected(lines[j], keys) && SecondKey(lines[j]) == code
  {
    HarvestAligned(lines, keys);
    var h, f := Harvest(lines, keys), Filter(lines, keys);
    var i :| 0 <= i < |h| && h[i] == code;
    FilterMember(lines, keys, f[i]);
    var j :| 0 <= j < |lines| && lines[j] == f[i];
    assert Selected(lines[j], keys) && SecondKey(lines[j]) == code;
  }

  /** The invoice code of every copied invoice line is collected. */
  lemma HarvestComplete(lines: seq<string>, keys: set<string>, j: nat)
    requires j < |lines| && Selected(lines[j], keys)
    ensures SecondKey(lines[j]) in Harvest(lines, keys)
  {
    HarvestAligned(lines, keys);
    var f := Filter(lines, keys);
    FilterMember(lines, keys, lines[j]);
    var i :| 0 <= i < |f| && f[i] == lines[j];
    assert Harvest(lines, keys)[i] == SecondKey(lines[j]);
  }

  /** An invoice code is collected exactly when some copied invoice line
      carries it. */
  lemma HarvestMember(lines: seq<string>, keys: set<string>, code: string)
    ensures code in Harvest(lines, keys) <==>
      exists j :: 0 <= j < |lines| && Selected(lines[j], keys) && SecondKey(lines[j]) == code
  {
    if code in Harvest(lines, keys) {
      HarvestSource(lines, keys, code);
    }
    if exists j :: 0 <= j < |lines| && Selected(lines[j], keys) && SecondKey(lines[j]) == code {
      var j :| 0 <= j < |lines| && Selected(lines[j], keys) && SecondKey(lines[j]) == code;
      HarvestComplete(lines, keys, j);
    }
  }

  // ---------------------------------------------------------------------
  // The pipeline

  /** The run succeeds exactly when the seed header and all three master
      headers are the expected literals. */
  lemma PipelineSucceeds(sample: seq<string>, customers: seq<string>, invoices: seq<string>, items: seq<string>)
    ensures Pipeline(sample, customers, invoices, items).ok <==>
      FirstLine(sample) == SEED_HEADER && FirstLine(customers) == CUSTOMER_HEADER &&
      FirstLine(invoices) == INVOICE_HEADER && FirstLine(items) == ITEM_HEADER
  {
  }

  /** A stage whose header differs writes no line, and neither does any later
      stage; a stage that passed keeps its output whatever happens later. */
  lemma PipelineStopsAtFirstFailure(sample: seq<string>, customers: seq<string>, invoices: seq<string>, items: seq<string>)
    ensures var o := Pipeline(sample, customers, invoices, items);
      (FirstLine(sample) != SEED_HEADER ==> o == Outcome(false, [], [], [])) &&
      (FirstLine(customers) != CUSTOMER_HEADER ==> o.customerOut == [] && o.invoiceOut == [] && o.itemOut == []) &&
      (FirstLine(invoices) != INVOICE_HEADER ==> o.invoiceOut == [] && o.itemOut == []) &&
      (FirstLine(items) != ITEM_HEADER ==> o.itemOut == []) &&
      (FirstLine(sample) == SEED_HEADER && FirstLine(customers) == CUSTOMER_HEADER ==>
         o.customerOut == [CUSTOMER_HEADER] + Filter(Data(customers), SeedKeys(sample))) &&
      (FirstLine(sample) == SEED_HEADER && FirstLine(customers) == CUSTOMER_HEADER &&
       FirstLine(invoices) == INVOICE_HEADER ==>
         o.invoiceOut == [INVOICE_HEADER] + Filter(Data(invoices), SeedKeys(sample)))
  {
  }

  /** On success each extracted file is its header followed by exactly the
      matching master lines, verbatim and in master order: customer and
      invoice lines whose customer code is a seed key, item lines whose
      invoice code is the invoice code of some copied invoice line. */
  lemma PipelineOutput(sample: seq<string>, customers: seq<string>, invoices: seq<string>, items: seq<string>, x: string)
    requires Pipeline(sample, customers, invoices, items).ok
    ensures var o := Pipeline(sample, customers, invoices, items);
      var keys := SeedKeys(sample);
      o.customerOut[0] == CUSTOMER_HEADER && o.invoiceOut[0] == INVOICE_HEADER && o.itemOut[0] == ITEM_HEADER &&
      (x in o.customerOut[1..] <==> x in Data(customers) && Selected(x, keys)) &&
      (x in o.invoiceOut[1..] <==> x in Data(invoices) && Selected(x, keys)) &&
      (x in o.itemOut[1..] <==>
         x in Data(items) && x != "" &&
         exists j :: 0 <= j < |Data(invoices)| && Selected(Data(invoices)[j], keys) && SecondKey(Data(invoices)[j]) == Key(x))
  {
    var o := Pipeline(sample, customers, invoices, items);
    var keys := SeedKeys(sample);
    var invoiceKeys := Elems(Harvest(Data(invoices), keys));
    assert o.customerOut[1..] == Filter(Data(customers), keys);
    assert o.invoiceOut[1..] == Filter(Data(invoices), keys);
    assert o.itemOut[1..] == Filter(Data(items), invoiceKeys);
    FilterMember(Data(customers), keys, x);
    FilterMember(Data(invoices), keys, x);
    FilterMember(Data(items), invoiceKeys, x);
    HarvestMember(Data(invoices), keys, Key(x));
  }

  /** The item line belongs to the invoice line, and the invoice line to a
      customer whose code is in keys. */
  predicate Traces(invoiceLine: string, itemLine: string, keys: set<string>)
  {
    SecondKey(invoiceLine) == Key(itemLine) && Key(invoiceLine) in keys
  }

  /** An item line copied for the invoice codes harvested from the invoice
      lines is traced back to a copied invoice line, at position k. */
  lemma ItemTrace(invoiceLines: seq<string>, keys: set<string>, itemLines: seq<string>, x: string) returns (k: nat)
    requires x in Filter(itemLines, Elems(Harvest(invoiceLines, keys)))
    ensures k < |Filter(invoiceLines, keys)| && Traces(Filter(invoiceLines, keys)[k], x, keys)
  {
    var rows := Filter(invoiceLines, keys);
    var codes := Harvest(invoiceLines, keys);
    FilterMember(itemLines, Elems(codes), x);
    k :| 0 <= k < |codes| && codes[k] == Key(x);
    HarvestAligned(invoiceLines, keys);
    FilterMember(invoiceLines, keys, rows[k]);
  }

  /** A line past the header of an output file is one of its data lines. */
  lemma DataLine(out: seq<string>, header: string, rows: seq<string>, i: nat)
    requires out == [header] + rows && 1 <= i < |out|
    ensures out[i] in rows
  {
    assert out[i] == rows[i - 1];
  }

  /** A data line of an output file at position k of its data is at
      position k + 1 of the file. */
  lemma TraceStep(out: seq<string>, header: string, rows: seq<string>, k: nat, x: string, keys: set<string>)
    requires out == [header] + rows
    requires k < |rows| && Traces(rows[k], x, keys)
    ensures exists j :: 1 <= j < |out| && Traces(out[j], x, keys)
  {
    assert out[k + 1] == rows[k];
  }

  /** The transitive closure on the output files of the two last passes. */
  lemma TraceOutput(invoiceLines: seq<string>, keys: set<string>, itemLines: seq<string>,
                    invoiceOut: seq<string>, itemOut: seq<string>, i: nat)
    requires invoiceOut == [INVOICE_HEADER] + Filter(invoiceLines, keys)
    requires itemOut == [ITEM_HEADER] + Filter(itemLines, Elems(Harvest(invoiceLines, keys)))
    requires 1 <= i < |itemOut|
    ensures exists j :: 1 <= j < |invoiceOut| && Traces(invoiceOut[j], itemOut[i], keys)
  {
    var x := itemOut[i];
    DataLine(itemOut, ITEM_HEADER, Filter(itemLines, Elems(Harvest(invoiceLines, keys))), i);
    var k := ItemTrace(invoiceLines, keys, itemLines, x);
    TraceStep(invoiceOut, INVOICE_HEADER, Filter(invoiceLines, keys), k, x, keys);
  }

  /** Transitive closure: every extracted item line belongs to an extracted
      invoice line, and that invoice line's customer code is a seed key. */
  lemma PipelineTransitive(sample: seq<string>, customers: seq<string>, invoices: seq<string>, items: seq<string>, i: nat)
    requires Pipeline(sample, customers, invoices, items).ok
    requires 1 <= i < |Pipeline(sample, customers, invoices, items).itemOut|
    ensures var o := Pipeline(sample, customers, invoices, items);
      exists j :: 1 <= j < |o.invoiceOut| && Traces(o.invoiceOut[j], o.itemOut[i], SeedKeys(sample))
  {
    var o := Pipeline(sample, customers, invoices, items);
    TraceOutput(Data(invoices), SeedKeys(sample), Data(items), o.invoiceOut, o.itemOut, i);
  }

  /** Lines none of whose keys is in keys are neither copied nor harvested. */
  lemma {:induction false} FilterNoKey(lines: seq<string>, keys: set<string>)
    requires forall line :: line in lines ==> Key(line) !in keys
    ensures Filter(lines, keys) == [] && Harvest(lines, keys) == []
  {
    if |lines| > 0 {
      var init := lines[..|lines| - 1];
      assert forall line :: line in init ==> line in lines;
      FilterNoKey(init, keys);
      assert lines[|lines| - 1] in lines;
    }
  }

  /** A seed that matches no customer code of the customer and invoice files
      gives three files holding only their headers. */
  lemma PipelineNoMatch(sample: seq<string>, customers: seq<string>, invoices: seq<string>, items: seq<string>)
    requires Pipeline(sample, customers, invoices, items).ok
    requires forall line :: line in Data(customers) ==> Key(line) !in SeedKeys(sample)
    requires forall line :: line in Data(invoices) ==> Key(line) !in SeedKeys(sample)
    ensures Pipeline(sample, customers, invoices, items) == Outcome(true, [CUSTOMER_HEADER], [INVOICE_HEADER], [ITEM_HEADER])
  {
    var keys := SeedKeys(sample);
    FilterNoKey(Data(customers), keys);
    FilterNoKey(Data(invoices), keys);
    assert Elems(Harvest(Data(invoices), keys)) == {};
    FilterNoKey(Data(items), {});
  }

  /** Two seed files with the same header and the same set of lines, in any
      order and with any repetition, give the same run. */
  lemma PipelineSeedDuplicates(sample1: seq<string>, sample2: seq<string>,
                               customers: seq<string>, invoices: seq<string>, items: seq<string>)
    requires FirstLine(sample1) == FirstLine(sample2)
    requires Elems(Data(sample1)) == Elems(Data(sample2))
    ensures Pipeline(sample1, customers, invoices, items) == Pipeline(sample2, customers, invoices, items)
  {
    forall k
      ensures k in SeedKeys(sample1) <==> k in SeedKeys(sample2)
    {
      if k in SeedKeys(sample1) {
        var line :| line in Data(sample1) && Unquote(line) == k;
        assert line in Elems(Data(sample2));
      }
      if k in SeedKeys(sample2) {
        var line :| line in Data(sample2) && Unquote(line) == k;
        assert line in Elems(Data(sample1));
      }
    }
    assert SeedKeys(sample1) == SeedKeys(sample2);
  }
}
