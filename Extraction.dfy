/** The extraction pipeline of src/dream_candies.cpp. A file is the sequence
    of its lines as std::getline returns them; a file that is missing or empty
    is the empty sequence, whose first line reads as "" (getline fails and
    leaves the line empty). Each output file is the sequence of lines written
    to it, every one of which the source follows with '\n'. */
module Extraction {
  import opened StringOrder
  import opened KeySet
  import opened Records

  const SEED_HEADER: string := "\"CUSTOMER_CODE\""
  const CUSTOMER_HEADER: string := "\"CUSTOMER_CODE\",\"FIRSTNAME\",\"LASTNAME\""
  const INVOICE_HEADER: string := "\"CUSTOMER_CODE\",\"INVOICE_CODE\",\"AMOUNT\",\"DATE\""
  const ITEM_HEADER: string := "\"INVOICE_CODE\",\"ITEM_CODE\",\"AMOUNT\",\"QUANTITY\""

  /** The line the header check compares: "" when the file has no line. */
  function FirstLine(file: seq<string>): string
  {
    if |file| == 0 then "" else file[0]
  }

  /** The lines after the header. */
  function Data(file: seq<string>): seq<string>
  {
    if |file| == 0 then [] else file[1..]
  }

  // ---------------------------------------------------------------------
  // Specification of the passes

  /** The codes a seed file lists: every data line with its quotes dropped,
      in file order, duplicates kept. */
  function SeedCodes(lines: seq<string>): seq<string>
  {
    if |lines| == 0 then []
    else SeedCodes(lines[..|lines| - 1]) + [Unquote(lines[|lines| - 1])]
  }

  /** The key set a seed file denotes. */
  function SeedKeys(sample: seq<string>): set<string>
  {
    set line | line in Data(sample) :: Unquote(line)
  }

  /** A data line the filter copies: a getline on it yields a first field,
      and that field without its quotes is a key. */
  predicate Selected(line: string, keys: set<string>)
  {
    line != "" && Key(line) in keys
  }

  /** The data lines a filter pass copies, verbatim and in file order. */
  function Filter(lines: seq<string>, keys: set<string>): seq<string>
  {
    if |lines| == 0 then []
    else
      var last := lines[|lines| - 1];
      Filter(lines[..|lines| - 1], keys) + (if Selected(last, keys) then [last] else [])
  }

  /** The invoice codes the invoice pass collects: the second key of every
      copied line, in file order, duplicates kept. */
  function Harvest(lines: seq<string>, keys: set<string>): seq<string>
  {
    if |lines| == 0 then []
    else
      var last := lines[|lines| - 1];
      Harvest(lines[..|lines| - 1], keys) + (if Selected(last, keys) then [SecondKey(last)] else [])
  }

  // ---------------------------------------------------------------------
  // What the source needs of its inputs so that no substr call throws

  /** Every seed data line is non-empty, when the seed header lets the loop run. */
  predicate SeedReadable(sample: seq<string>)
  {
    FirstLine(sample) == SEED_HEADER ==> forall i :: 1 <= i < |sample| ==> sample[i] != ""
  }

  /** Every non-empty data line has a non-empty first field, when the header
      lets the loop run. */
  predicate MasterReadable(file: seq<string>, header: string)
  {
    FirstLine(file) == header ==> AllParsable(Data(file))
  }

  /** Every copied line has a non-empty second field. */
  predicate Harvestable(lines: seq<string>, keys: set<string>)
  {
    forall i :: 0 <= i < |lines| && Selected(lines[i], keys) ==> SecondKeyReadable(lines[i])
  }

  predicate InvoicesReadable(file: seq<string>, keys: set<string>)
  {
    FirstLine(file) == INVOICE_HEADER ==> AllParsable(Data(file)) && Harvestable(Data(file), keys)
  }

  // ---------------------------------------------------------------------
  // The passes

  /** set_customer_codes: checks the seed header, appends every further line
      without its quotes to the caller's vector, then sorts it and drops
      duplicates. The vector is passed in as codes and comes back as codes'. */
  method SetCustomerCodes(sample: seq<string>, codes: seq<string>) returns (ok: bool, codes': seq<string>)
    requires SeedReadable(sample)
    ensures ok <==> FirstLine(sample) == SEED_HEADER
    ensures !ok ==> codes' == codes
    ensures ok ==> StrictlySorted(codes') && Elems(codes') == Elems(codes) + SeedKeys(sample)
  {
    if FirstLine(sample) != SEED_HEADER {
      return false, codes;
    }
    codes' := codes;
    var i := 1;
    while i < |sample|
      invariant 1 <= i <= |sample|
      invariant codes' == codes + SeedCodes(sample[1..i])
    {
      assert sample[1..i + 1][..i - 1] == sample[1..i];
      codes' := codes' + [Unquote(sample[i])];
      i := i + 1;
    }
    assert sample[1..i] == Data(sample);
    SeedCodesElems(Data(sample));
    assert Elems(codes') == Elems(codes) + SeedKeys(sample);
    codes' := SortUnique(codes');
    ok := true;
  }

  /** The seed codes collected in order hold exactly the seed key set. */
  lemma {:induction false} SeedCodesElems(lines: seq<string>)
    ensures Elems(SeedCodes(lines)) == set line | line in lines :: Unquote(line)
  {
    if |lines| > 0 {
      var init := lines[..|lines| - 1];
      var last := lines[|lines| - 1];
      SeedCodesElems(init);
      assert lines == init + [last];
      assert Elems(SeedCodes(lines)) == Elems(SeedCodes(init)) + {Unquote(last)};
      assert (set line | line in lines :: Unquote(line))
          == (set line | line in init :: Unquote(line)) + {Unquote(last)};
    }
  }

  /** The loop shared by the customer and invoice-item passes: every data line
      whose first field, unquoted, is found by binary search in codes is
      copied. */
  method FilterRows(lines: seq<string>, codes: seq<string>) returns (rows: seq<string>)
    requires Sorted(codes)
    requires AllParsable(lines)
    ensures rows == Filter(lines, Elems(codes))
  {
    rows := [];
    for i := 0 to |lines|
      invariant rows == Filter(lines[..i], Elems(codes))
    {
      assert lines[..i + 1][..i] == lines[..i];
      var line := lines[i];
      if line != "" {
        var found := BinarySearch(codes, Key(line));
        if found {
          rows := rows + [line];
        }
      }
    }
    assert lines[..|lines|] == lines;
  }

  /** The loop of the invoice pass: copies the matching lines and collects the
      invoice code of each copied line. */
  method FilterAndHarvest(lines: seq<string>, codes: seq<string>) returns (rows: seq<string>, invoiceCodes: seq<string>)
    requires Sorted(codes)
    requires AllParsable(lines) && Harvestable(lines, Elems(codes))
    ensures rows == Filter(lines, Elems(codes))
    ensures invoiceCodes == Harvest(lines, Elems(codes))
  {
    rows, invoiceCodes := [], [];
    for i := 0 to |lines|
      invariant rows == Filter(lines[..i], Elems(codes))
      invariant invoiceCodes == Harvest(lines[..i], Elems(codes))
    {
      assert lines[..i + 1][..i] == lines[..i];
      var line := lines[i];
      if line != "" {
        var found := BinarySearch(codes, Key(line));
        if found {
          rows := rows + [line];
          invoiceCodes := invoiceCodes + [SecondKey(line)];
        }
      }
    }
    assert lines[..|lines|] == lines;
  }

  /** extract_customers: the header, then the customer lines whose code is in
      codes; nothing when the header differs. */
  method ExtractCustomers(file: seq<string>, codes: seq<string>) returns (ok: bool, out: seq<string>)
    requires Sorted(codes)
    requires MasterReadable(file, CUSTOMER_HEADER)
    ensures ok <==> FirstLine(file) == CUSTOMER_HEADER
    ensures out == if ok then [CUSTOMER_HEADER] + Filter(Data(file), Elems(codes)) else []
  {
    var line := FirstLine(file);
    if line != CUSTOMER_HEADER {
      return false, [];
    }
    var rows := FilterRows(Data(file), codes);
    ok, out := true, [line] + rows;
  }

  /** extract_invoice_items: sorts and deduplicates the caller's invoice codes
      in place (before the header check), then writes the header and the item
      lines whose invoice code is among them. */
  method ExtractInvoiceItems(file: seq<string>, codes: seq<string>) returns (ok: bool, out: seq<string>, codes': seq<string>)
    requires MasterReadable(file, ITEM_HEADER)
    ensures StrictlySorted(codes') && Elems(codes') == Elems(codes)
    ensures ok <==> FirstLine(file) == ITEM_HEADER
    ensures out == if ok then [ITEM_HEADER] + Filter(Data(file), Elems(codes)) else []
  {
    codes' := SortUnique(codes);
    var line := FirstLine(file);
    if line != ITEM_HEADER {
      return false, [], codes';
    }
    StrictlySortedIsSorted(codes');
    var rows := FilterRows(Data(file), codes');
    ok, out := true, [line] + rows;
  }

  /** extract_invoices_and_items: writes the header and the invoice lines whose
      customer code is in codes, collecting their invoice codes, then runs the
      invoice-item pass on those codes and returns its verdict. */
  method ExtractInvoicesAndItems(invoices: seq<string>, items: seq<string>, codes: seq<string>)
    returns (ok: bool, invoiceOut: seq<string>, itemOut: seq<string>)
    requires Sorted(codes)
    requires InvoicesReadable(invoices, Elems(codes))
    requires FirstLine(invoices) == INVOICE_HEADER ==> MasterReadable(items, ITEM_HEADER)
    ensures ok <==> FirstLine(invoices) == INVOICE_HEADER && FirstLine(items) == ITEM_HEADER
    ensures invoiceOut == if FirstLine(invoices) == INVOICE_HEADER
      then [INVOICE_HEADER] + Filter(Data(invoices), Elems(codes)) else []
    ensures itemOut == if ok
      then [ITEM_HEADER] + Filter(Data(items), Elems(Harvest(Data(invoices), Elems(codes)))) else []
  {
    var line := FirstLine(invoices);
    if line != INVOICE_HEADER {
      return false, [], [];
    }
    var rows, invoiceCodes := FilterAndHarvest(Data(invoices), codes);
    invoiceOut := [line] + rows;
    ok, itemOut, invoiceCodes := ExtractInvoiceItems(items, invoiceCodes);
  }

  // ---------------------------------------------------------------------
  // The pipeline

  /** The verdict of a run and the lines written to the three extracted
      files; a file whose pass failed or did not run holds no line. */
  datatype Outcome = Outcome(ok: bool, customerOut: seq<string>, invoiceOut: seq<string>, itemOut: seq<string>)

  /** What a run of the pipeline produces, stage by stage. */
  function Pipeline(sample: seq<string>, customers: seq<string>, invoices: seq<string>, items: seq<string>): Outcome
  {
    if FirstLine(sample) != SEED_HEADER then Outcome(false, [], [], [])
    else
      var keys := SeedKeys(sample);
      if FirstLine(customers) != CUSTOMER_HEADER then Outcome(false, [], [], [])
      else
        var customerOut := [CUSTOMER_HEADER] + Filter(Data(customers), keys);
        if FirstLine(invoices) != INVOICE_HEADER then Outcome(false, customerOut, [], [])
        else
          var invoiceOut := [INVOICE_HEADER] + Filter(Data(invoices), keys);
          var invoiceKeys := Elems(Harvest(Data(invoices), keys));
          if FirstLine(items) != ITEM_HEADER then Outcome(false, customerOut, invoiceOut, [])
          else Outcome(true, customerOut, invoiceOut, [ITEM_HEADER] + Filter(Data(items), invoiceKeys))
  }

  /** What the source needs of the four files, stage by stage: a file is read
      only when every earlier stage has passed. */
  predicate Readable(sample: seq<string>, customers: seq<string>, invoices: seq<string>, items: seq<string>)
  {
    SeedReadable(sample) &&
    (FirstLine(sample) == SEED_HEADER ==>
      MasterReadable(customers, CUSTOMER_HEADER) &&
      (FirstLine(customers) == CUSTOMER_HEADER ==>
        InvoicesReadable(invoices, SeedKeys(sample)) &&
        (FirstLine(invoices) == INVOICE_HEADER ==> MasterReadable(items, ITEM_HEADER))))
  }

  /** extract_customer_data: loads the seed codes into an empty vector, then
      runs the customer pass and, only if it passed, the invoice pass. */
  method ExtractCustomerData(sample: seq<string>, customers: seq<string>, invoices: seq<string>, items: seq<string>)
    returns (ok: bool, customerOut: seq<string>, invoiceOut: seq<string>, itemOut: seq<string>)
    requires Readable(sample, customers, invoices, items)
    ensures Outcome(ok, customerOut, invoiceOut, itemOut) == Pipeline(sample, customers, invoices, items)
  {
    customerOut, invoiceOut, itemOut := [], [], [];
    var loaded, codes := SetCustomerCodes(sample, []);
    if !loaded {
      return false, customerOut, invoiceOut, itemOut;
    }
    assert Elems(codes) == SeedKeys(sample);
    StrictlySortedIsSorted(codes);
    var customersOk;
    customersOk, customerOut := ExtractCustomers(customers, codes);
    if !customersOk {
      return false, customerOut, invoiceOut, itemOut;
    }
    ok, invoiceOut, itemOut := ExtractInvoicesAndItems(invoices, items, codes);
  }
}
