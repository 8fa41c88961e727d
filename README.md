# DreamCandies customer-data extraction, modelled in Dafny

DreamCandies extracts a consistent slice of its master data. A customer
sample file lists customer codes under the header `"CUSTOMER_CODE"`. The
program reads the sample, then copies three master files into extracted
files, keeping only matching lines:

- `customer.csv`: a customer line is kept when its customer code (first
  field) is in the sample;
- `invoice.csv`: an invoice line is kept when its customer code is in the
  sample, and its invoice code (second field) is collected;
- `invoice_item.csv`: an item line is kept when its invoice code (first
  field) is one of the collected codes.

Each pass first checks that its file starts with the exact expected header,
and fails otherwise. The driver succeeds only when every pass succeeds, and
it stops at the first failing pass.

The model covers `src/dream_candies.cpp`, lines 11-156:

- `StringOrder`: `std::string`'s `operator<` as lexicographic order on
  characters, proved a strict total order.
- `KeySet`: the code vector. It models `std::lower_bound`/`binary_search`
  on a sorted vector, and the sort/unique/erase idiom as `SortUnique`.
- `Records`: how a line is read as a record. The first field is read as
  `getline(record, field, ',')` reads it, and one character is dropped at
  each end as `substr(1, length - 2)` drops it. The second field is read the
  same way, after the first. On a line without `','` the second getline
  fails and leaves the buffer holding the first field, so the invoice code
  collected from such a line is the line's own customer code
  (`Records.SecondKey`).
- `Extraction`: the five functions of the source as methods. The loops are
  in `SetCustomerCodes`, `FilterRows` and `FilterAndHarvest`. Each method
  is proved against the specification functions `Filter`, `Harvest` and
  `SeedKeys`, or against the staged `Pipeline` function.
- `Properties`: what the extraction promises, proved of those functions.
  This covers exact filtering, harvest alignment, the success and failure
  behaviour of the run, transitive closure, header-only output for a
  non-matching sample, and insensitivity to duplicate sample codes.
- `Scenarios`: the repository's test cases, over fixtures written with
  their codes as parameters. Each test is proved of the `Pipeline` function,
  then run through `ExtractCustomerData` on the fixture files, which are
  shown to meet its precondition.

A file is the sequence of its lines. A file that is missing or empty is
`[]`, and its first line reads as `""`, exactly as a failed `getline` leaves
it. So a missing file fails its header check the same way as a file with
the wrong header. Each extracted file is the sequence of lines written to
it. A pass that failed, or was never reached, wrote no line.

## Model

| member | source | states |
|---|---|---|
| StringOrder.Less | src/dream_candies.cpp:27-28 | `std::string`'s `operator<`, which `std::sort` orders by and `binary_search` at line 56 compares with: lexicographic order on characters, a proper prefix first; the four lemmas below prove it a strict total order |
| StringOrder.LessIrreflexive | src/dream_candies.cpp:27 | no string is less than itself (the ordering `std::sort` needs is strict) |
| StringOrder.LessTransitive | src/dream_candies.cpp:27 | string order is transitive |
| StringOrder.LessTotal | src/dream_candies.cpp:27 | any two distinct strings are ordered one way or the other |
| StringOrder.LessAsymmetric | src/dream_candies.cpp:27 | two strings are never each less than the other |
| StringOrder.StrictlySortedIsSorted | src/dream_candies.cpp:27-28 | a sorted, duplicate-free vector is sorted, so binary search may be run on it |
| KeySet.LowerBound | src/dream_candies.cpp:56 | on a sorted vector, the returned position splits the elements less than x from the rest |
| KeySet.BinarySearch | src/dream_candies.cpp:56 | on a sorted vector, the answer is true exactly when x occurs in it |
| KeySet.InsertUnique | src/dream_candies.cpp:27-28 | inserting into a strictly increasing vector keeps it strictly increasing and adds exactly x to its elements |
| KeySet.SortUnique | src/dream_candies.cpp:27-28 | sort, unique and erase leave a strictly increasing vector with exactly the elements of the input |
| KeySet.StrictlySortedUnique | src/dream_candies.cpp:27-28 | two strictly increasing vectors with the same elements are equal, so the deduplicated vector depends only on the set of codes |
| Records.CommaIndex | src/dream_candies.cpp:54-55 | the first field ends at the first ',', or at the end of a line with no ',' |
| Records.Unquote | src/dream_candies.cpp:23 | `substr(1, length - 2)` as lines 23, 56, 91, 124 and 129 apply it: the first and the last character are dropped, and a field of length 1 gives "" as in C++; `Records.UnquoteQuote` is its round trip |
| Records.UnquoteQuote | src/dream_candies.cpp:23 | dropping the quotes of a quoted text gives the text back, the fact each key read relies on |
| Records.Key | src/dream_candies.cpp:54-56 | the customer or invoice code a pass compares: the text before the first ',', or the whole line, with its quotes dropped; `Records.KeyOfRecord` is its round trip |
| Records.SecondKey | src/dream_candies.cpp:128-129 | the invoice code collected from a copied invoice line: the second field with its quotes dropped, or, on a line without ',', the first field, which the failed second getline leaves in place; `Records.SecondKeyOfRecord` and `Records.SecondKeyOfSingleField` are its round trips |
| Records.KeyOfRecord | src/dream_candies.cpp:54-56 | a line starting with a quoted, comma-free code has that code as key, whether or not more fields follow |
| Records.SecondKeyOfRecord | src/dream_candies.cpp:122-129 | a line `"a","b"` followed by nothing or by further fields yields invoice code b, and reading it does not throw |
| Records.SecondKeyOfSingleField | src/dream_candies.cpp:122-129 | a one-field line `"a"` yields invoice code a, because the failed second getline leaves the first field in place |
| Extraction.SetCustomerCodes | src/dream_candies.cpp:11-31 | fails, leaving the vector untouched, exactly when the first line is not the seed header; otherwise the vector comes back strictly increasing, holding exactly its old codes plus the unquoted seed lines |
| Extraction.SeedCodesElems | src/dream_candies.cpp:22-24 | the codes appended in file order are exactly the unquoted seed lines |
| Extraction.FilterRows | src/dream_candies.cpp:53-61 | the copied lines are exactly the non-empty lines whose unquoted first field binary search finds in the codes, verbatim and in file order |
| Extraction.FilterAndHarvest | src/dream_candies.cpp:121-132 | copies the invoice lines of the sampled customers, and collects the invoice code of each copied line, in the same order |
| Extraction.ExtractCustomers | src/dream_candies.cpp:38-65 | succeeds exactly when the customer header is the expected literal; then the output is that header followed by the matching customer lines, and otherwise the output is empty |
| Extraction.ExtractInvoiceItems | src/dream_candies.cpp:72-100 | deduplicates and sorts the caller's codes even when the header check fails; succeeds exactly when the item header matches; then the output is the header followed by the item lines whose invoice code is collected |
| Extraction.ExtractInvoicesAndItems | src/dream_candies.cpp:108-137 | without the invoice header it writes nothing and fails; otherwise it writes the header and the matching invoice lines, and its verdict and item output are those of the item pass run on the collected invoice codes |
| Extraction.ExtractCustomerData | src/dream_candies.cpp:146-156 | the verdict and the three extracted files are those of the staged pipeline on the four input files |
| Properties.FilterMember | src/dream_candies.cpp:53-61 | a line is copied exactly when it is a data line of the file, non-empty, with its key in the key set |
| Properties.FilterCount | src/dream_candies.cpp:53-61 | each matching line is copied as often as it occurs, and other lines never |
| Properties.FilterAppend | src/dream_candies.cpp:53-61 | filtering two consecutive parts of a file gives the two outputs in order, so the output keeps file order |
| Properties.FilterPermutation | src/dream_candies.cpp:53-61 | permuting the master lines permutes the copied lines |
| Properties.FilterEmpty | src/dream_candies.cpp:53-61 | no line is copied exactly when no data line matches |
| Properties.HarvestAligned | src/dream_candies.cpp:121-132 | the collected invoice codes line up one to one with the copied invoice lines, each being that line's invoice code |
| Properties.HarvestMember | src/dream_candies.cpp:121-132 | an invoice code is collected exactly when some copied invoice line carries it |
| Properties.PipelineSucceeds | src/dream_candies.cpp:146-156 | the run succeeds exactly when the seed header and all three master headers are the expected literals |
| Properties.PipelineStopsAtFirstFailure | src/dream_candies.cpp:146-156 | a failing header leaves its own extracted file and every later one empty, while the customer and invoice passes that passed keep their output: the header followed by the matching lines |
| Properties.PipelineOutput | src/dream_candies.cpp:146-156 | on success each extracted file is its header followed by exactly the matching lines: customer and invoice lines of sampled customers, and item lines of the invoice codes on copied invoice lines |
| Properties.PipelineTransitive | src/dream_candies.cpp:121-137 | every extracted item line has an extracted invoice line whose invoice code is the item's key and whose customer code is in the sample |
| Properties.PipelineNoMatch | src/dream_candies.cpp:146-156 | a sample that matches no customer or invoice line gives three files holding only their headers |
| Properties.PipelineSeedDuplicates | src/dream_candies.cpp:22-28 | two samples with the same header and the same set of lines, in any order and with any repetition, give the same run |
| Scenarios.TestFixtures | src/dream_candies.cpp:175-199 | the test fixture files have the layout the test lemmas assume: headers, keys and invoice codes as listed |
| Scenarios.HappyPath | src/dream_candies.cpp:240-253 | sampling both customers succeeds and extracts every master file unchanged |
| Scenarios.HappyPathOnFixtures | src/dream_candies.cpp:240-253 | the same, on the fixture files themselves |
| Scenarios.BadSeed | src/dream_candies.cpp:255-270 | a sample file with a bad header, or one that is missing, fails the run before anything is written |
| Scenarios.MissingCustomerFile | src/dream_candies.cpp:272-276 | a missing customer file fails the run, and nothing is extracted |
| Scenarios.MissingInvoiceFile | src/dream_candies.cpp:278-282 | a missing invoice file fails the run after the customer file was extracted |
| Scenarios.MissingInvoiceFileOnFixtures | src/dream_candies.cpp:278-282 | the same, on the fixture files themselves |
| Scenarios.MissingItemFile | src/dream_candies.cpp:284-288 | a missing item file fails the run after the customer and invoice files were extracted |
| Scenarios.MissingItemFileOnFixtures | src/dream_candies.cpp:284-288 | the same, on the fixture files themselves |
| Scenarios.SubsetOfCustomers | src/dream_candies.cpp:301-329 | sampling the second customer extracts its line, its one invoice and that invoice's two items |
| Scenarios.SubsetOfCustomersOnFixtures | src/dream_candies.cpp:301-329 | the same, on the fixture files themselves |
| Scenarios.SubsetOfCustomers2 | src/dream_candies.cpp:331-363 | sampling the first customer extracts its line, its two invoices and their five items, in file order |
| Scenarios.SubsetOfCustomers2OnFixtures | src/dream_candies.cpp:331-363 | the same, on the fixture files themselves |
| Scenarios.DuplicateCustomerCodes | src/dream_candies.cpp:365-385 | a sample listing the second customer twice, around the first, gives the same files as the happy path |
| Scenarios.DuplicateCustomerCodesOnFixtures | src/dream_candies.cpp:365-385 | the same, on the fixture files themselves |
| Scenarios.NoMatchingCustomers | src/dream_candies.cpp:387-411 | a code of no customer succeeds with three header-only files |
| Scenarios.NoMatchingCustomersOnFixtures | src/dream_candies.cpp:387-411 | the same, on the fixture files themselves |
| Scenarios.FixturesReadable | src/dream_candies.cpp:175-199 | a seed file of any codes and the fixture files, with any master file missing or not, can be read without a `substr` call throwing, which is what `ExtractCustomerData` requires |
| Scenarios.HappyPathRun | src/dream_candies.cpp:240-253 | `ExtractCustomerData` on the fixtures with both customers sampled returns true and the three master files unchanged |
| Scenarios.BadSeedRun | src/dream_candies.cpp:255-299 | `ExtractCustomerData` with a bad-header, missing or empty seed file returns false and writes nothing |
| Scenarios.MissingCustomerFileRun | src/dream_candies.cpp:272-276 | `ExtractCustomerData` without the customer file returns false and writes nothing |
| Scenarios.MissingInvoiceFileRun | src/dream_candies.cpp:278-282 | `ExtractCustomerData` without the invoice file returns false after writing the full customer file |
| Scenarios.MissingItemFileRun | src/dream_candies.cpp:284-288 | `ExtractCustomerData` without the item file returns false after writing the full customer and invoice files |
| Scenarios.SubsetOfCustomersRun | src/dream_candies.cpp:301-329 | `ExtractCustomerData` sampling the second customer returns true with the files the test expects |
| Scenarios.SubsetOfCustomers2Run | src/dream_candies.cpp:331-363 | `ExtractCustomerData` sampling the first customer returns true with the files the test expects |
| Scenarios.DuplicateCustomerCodesRun | src/dream_candies.cpp:365-385 | `ExtractCustomerData` with the seed c2, c1, c2 returns true and the three master files unchanged |
| Scenarios.NoMatchingCustomersRun | src/dream_candies.cpp:387-411 | `ExtractCustomerData` with a code of no customer returns true and three header-only files |

## Left out

- File I/O: the paths, opening, creating and truncating files, and writing
  the `'\n'` after each line are not modelled. Each file is the sequence of
  its lines. A missing or empty input file is the empty sequence. The paths
  `original_files/...` and `extracted_files/...` are fixed in the source and
  do not appear in the model.
- Creating an output file truncates it in C++. A pass that is never reached
  leaves its old extracted file on disk, but in the model that pass's output
  is always `[]` (it wrote no line). A pass that fails its header check has
  already truncated its file, and in the model its output is `[]` as well.
- Splitting a file into lines by `getline` (`'\n'` as separator, no
  `'\r'` handling) is taken as given: each file arrives as its lines.
- A `substr(1, ...)` call on an empty field throws `std::out_of_range`.
  This happens on an empty seed line, on a master line that starts with
  `','`, and on a copied invoice line whose second field is empty.
  `Extraction.SetCustomerCodes`, `Extraction.FilterRows`,
  `Extraction.FilterAndHarvest`, `Extraction.ExtractCustomers`,
  `Extraction.ExtractInvoiceItems`, `Extraction.ExtractInvoicesAndItems`
  and `Extraction.ExtractCustomerData` exclude these inputs by
  precondition, because the exception path is not modelled.
- The code vectors are passed by reference and changed in place in C++. The
  model passes them in as values and returns the new vector (`codes'`).
- `std::sort` and `std::unique` are modelled by their result (an insertion
  into a strictly increasing sequence), not by their algorithms.
  `std::binary_search` is modelled as lower bound followed by one
  comparison.
- `Scenarios.TestFixtures` and the `OnFixtures` lemmas: the test codes
  (`CUST0000010231`, `IN0000001`, ...) are symbolic, comma-free, distinct
  codes. The other fixture fields are written out.
- `Scenarios.BadSeed` covers the empty_path test (lines 290-292) and the
  empty_input_file test (lines 294-299) as the empty sequence, because a
  path that cannot be opened reads the same as an empty file.
- The gtest harness, `ReadFile` and `main` (lines 163-173, 222-238,
  413-417) are test plumbing and not modelled.
