# PeruDelivery invoices in Dafny

PeruDelivery is a small Streamlit application that writes restaurant
invoices as fixed-width text files under `cache/` and lets the user list,
edit, back up and delete them. This project models its core:

- the input checks and money helpers (`utils/validaciones.py`);
- the invoice directory (`utils/archivo.py`): numbering, the file layout,
  reading the total back, listing, deleting and backing up;
- the edit page (`pages/listar_facturas.py`): the list of invoices, the
  parser that reads an invoice file back into products, the ten form rows
  kept between reruns, the totals, and the save that rewrites the file.

Amounts are integer cents. `:.2f` is `Numerals.FormatCents`, `float()` of a
decimal text is `Numerals.ParseDecimal`, `int()` is `Numerals.ParseInt`,
and `str(n).zfill(3)` is `Numerals.ZFill`. The directory `cache/` is the
`files` map of the class `Store.InvoiceStore` (file name to text), the backup
folder is its `backups` map (path to text), and `verificar_factura_existe` is
its predicate `Exists`. The edit page's `st.session_state` is the class
`Editor.EditSession`. `guardar_factura` and `escribir_factura` share one
renderer (`Layout.Render`), which differs only in whether names are cut to
19 characters. The document always has 9 + n lines: 4 above the n items and
5 below.

What is proved, in short:
- invoice names round-trip through their number;
- the next number is fresh and one past the largest;
- a saved or edited invoice parses back to its products, with the exact
  conditions under which a row is silently lost;
- the total read from a listed file is the rendered total;
- the listings are sorted permutations of what they collect;
- the subtotal shown on the edit page can exceed what is saved.

The code reuses invoice numbers: after the newest invoice is deleted, the
next save takes its number again (`Store.NewestNumberReused`).

Modules: `Wrappers`, `Text` (Python `str` methods), `Numerals` (integer and
two-decimal text), `Validation`, `Layout` (the writer), `Codec`
(`parsear_factura`), `RoundTrip` (write-then-read lemmas), `Summary` (the
TOTAL line scan), `Store`, `Editor`.

## Model

| member | source | states |
|---|---|---|
| Validation.DatoValido | utils/validaciones.py:17-46 | true exactly when the price is an int or float with 0 < price <= 10,000 and the quantity is an int with 0 < quantity <= 999 |
| Validation.DatoValidoBoundaries | utils/validaciones.py:26-41 | a zero price, a price one cent over 10,000, quantity 1000 and a float quantity are refused; price 1 with quantity 1, and the largest price with quantity 999, are accepted |
| Validation.ValidarNombreProducto | utils/validaciones.py:49-80 | true exactly for a str whose stripped form has 2 to 50 characters and at least one letter |
| Validation.ValidarNumeroFactura | utils/validaciones.py:83-109 | an int, or a str of an optional sign and ASCII digits, is valid exactly when it lies in 1..999; other strs, floats and None are refused |
| Validation.ValidNumberThreeDigits | utils/validaciones.py:102-104 | every valid invoice number zero-fills to exactly three digits that parse back to the number |
| Validation.ValidarMonto | utils/validaciones.py:112-142 | a number, or a str that `ParseDecimal` reads, is valid exactly when it lies in 0..100,000; None is refused |
| Validation.NameMessages | utils/validaciones.py:163-172 | no message exactly when the name is valid, otherwise one message; AttributeError exactly for a truthy non-str |
| Validation.PriceMessages | utils/validaciones.py:175-182 | no message exactly when `dato_valido(precio, 1)` holds, otherwise one message; TypeError exactly for a non-number |
| Validation.QuantityMessages | utils/validaciones.py:185-192 | no message exactly when `dato_valido(1, cantidad)` holds, otherwise one message; TypeError exactly for a non-number |
| Validation.ValidarProductoCompleto | utils/validaciones.py:145-194 | the errors are the name, price and quantity messages in that order; `valido` holds exactly when there are none, which is exactly when all three checks pass; the first raising check decides the error |
| Validation.LimpiarYValidarEntrada | utils/validaciones.py:197-222 | a non-str gives ""; a str gives its stripped text with the forbidden characters blanked and space runs squeezed; the result has no forbidden character and no double space |
| Validation.BlankClean | utils/validaciones.py:214-216 | after the replacements no forbidden character is left |
| Validation.CollapseShortens | utils/validaciones.py:219-220 | each `replace('  ', ' ')` pass on a text with a double space makes it shorter, so the loop ends |
| Validation.SqueezeCollapse | utils/validaciones.py:219-220 | one replacement pass leaves the squeezed result unchanged |
| Validation.SqueezeFixed | utils/validaciones.py:219 | a text with no double space is already squeezed |
| Validation.SanitisedLeadingPipe | utils/validaciones.py:207-222 | a text starting with a pipe is cleaned to one starting with a space: blanking happens after stripping |
| Validation.FormatearPrecio | utils/validaciones.py:225-238 | the text starts with "S/. " and ends in exactly two decimals; the amount after "S/. " reads back as the price; the amount is the `:.2f` text of the price; None, and a str `ParseDecimal` does not read, give "S/. 0.00" |
| Numerals.FormatCentsTwoDecimals | utils/validaciones.py:236 | `:.2f` ends the text in a point and exactly two digits |
| Validation.CalcularIgv | utils/validaciones.py:241-255 | a subtotal that `float()` refuses gives 0.0 |
| Validation.CalcularTotalConIgv | utils/validaciones.py:258-275 | the IGV is `calcular_igv` of the subtotal and the total minus the IGV is the subtotal; a refused subtotal gives (0.0, 0.0) |
| Validation.TotalConIgvDefaultRate | utils/validaciones.py:258-273 | at the default rate the total is 1.18 times the subtotal and the IGV is 18% of it |
| Numerals.ZFillRoundTrip | utils/archivo.py:23 | `int()` of `str(n).zfill(w)` is n for every integer n and width w |
| Numerals.FormatCentsRoundTrip | pages/listar_facturas.py:147 | `float()` of an amount written with `:.2f` gives the amount back |
| Layout.NameCell | utils/archivo.py:69 | the name cell is a prefix of the name: the first 19 characters of a longer name when cutting, the whole name otherwise |
| Layout.WriteInvoice | utils/archivo.py:57-79 | the text written is the document's lines, each followed by a newline |
| Layout.DocumentShape | utils/archivo.py:59-79 | the document has 9 + n lines: 4 head lines, then row i for product i, then 5 summary lines |
| Layout.TruncatedRowColumn20 | utils/archivo.py:69-70 | with names cut to 19 characters, the 20th column of every item row is a space |
| Layout.UntruncatedRowKeepsName | pages/listar_facturas.py:168 | without cutting, an item row starts with the whole name |
| Layout.SameLayoutForShortNames | pages/listar_facturas.py:160-177 | when no name is over 19 characters, `escribir_factura` writes the same text as `guardar_factura` |
| Codec.ReadLinesOfLines | pages/listar_facturas.py:116-117 | reading back a text written one newline-free line at a time gives exactly those lines |
| Codec.FirstDashFinds | pages/listar_facturas.py:123-132 | a line found is all dashes and no earlier line in range is; when none is found, no line in range is all dashes |
| Codec.FirstDashAt | pages/listar_facturas.py:123-132 | the first all-dash line in range is the one found |
| Codec.ParseRow | pages/listar_facturas.py:138-152 | an item read from a line has a non-empty name of at most 20 characters with no whitespace at either end |
| Codec.ParseInvoice | pages/listar_facturas.py:114-153 | the two scans and the row loop return the items of the block between the first two dash lines after line 0 |
| RoundTrip.RowReadsBack | pages/listar_facturas.py:142-150 | a row written with a cut name reads back as its stripped name cell, its price and its quantity when the quantity and line total fit their columns |
| RoundTrip.SavedInvoiceReadsBack | pages/listar_facturas.py:114-153 | a file written by `guardar_factura` parses back to one item per product, in order, when every product reads back |
| RoundTrip.SavedInvoiceReadsBackInRange | pages/listar_facturas.py:114-153 | the same for quantities 0..999 and line totals under 1,000,000.00 with non-blank names |
| RoundTrip.WideLineTotalRowDropped | pages/listar_facturas.py:143-145 | a line total of 10 or more characters fuses with the quantity column, and the row is dropped |
| RoundTrip.LargestPriceRowDropped | pages/listar_facturas.py:143-145 | 100 units at the largest valid price write a row that the parser drops |
| RoundTrip.EditedInvoiceReadsBack | pages/listar_facturas.py:160-177 | a file written by `escribir_factura` with names of at most 19 characters parses back to one item per product, in order |
| RoundTrip.LongNameRowDropped | pages/listar_facturas.py:168 | written whole, a name over 20 characters whose tail is not a number pushes that tail into the price column, and the row is dropped |
| RoundTrip.PizzaFamiliarGrandeDropped | pages/listar_facturas.py:168 | "Pizza familiar grande" (21 characters) saved from the edit page is lost on the next load |
| Summary.TotalOfFirst | utils/archivo.py:126-129 | the total is the stripped text after "S/." on the first line holding both "TOTAL" and "S/." |
| Summary.TotalOfNone | utils/archivo.py:122-129 | with no such line the total is "0.00" |
| Summary.ExtractTotal | utils/archivo.py:122-129 | the line scan returns the total of the text's lines |
| Summary.TotalLineAnnounces | utils/archivo.py:78 | the TOTAL line holds both markers and its amount text is the formatted total |
| Summary.RowWithoutS | utils/archivo.py:127 | an item row whose name has no capital S is never taken for the total line |
| Summary.ListedTotalOfRender | utils/archivo.py:122-129 | the total read from a rendered invoice is its formatted total when no item row holds both markers |
| Store.FileNameRoundTrip | utils/archivo.py:20-23 | the name built for n passes the name filter and parses back to n, for every integer n |
| Store.FourDigitAlias | utils/archivo.py:20-23 | "factura_0001.txt" also parses as invoice 1, whose own name is "factura_001.txt" |
| Store.MaxNumber | utils/archivo.py:19-30 | None exactly when no name carries a number; otherwise the largest number carried |
| Store.InvoiceStore.NextNumber | utils/archivo.py:4-35 | one pass over the directory returns the largest number plus one, or 1 when there is none |
| Store.NextNumberFresh | utils/archivo.py:29-32 | the next number is above every number in use, and its file name is not in use |
| Store.NextNumberAfterSave | utils/archivo.py:29-30 | after saving invoice n, the next number is n + 1 |
| Store.NewestNumberReused | utils/archivo.py:29-30 | after deleting the newest invoice, the next save takes its number again |
| Store.InvoiceStore.GuardarFactura | utils/archivo.py:38-82 | the file for the next number, which did not exist, receives the rendered invoice with cut names; no other file changes |
| Store.InvoiceStore.Overwrite | pages/listar_facturas.py:162-173 | the named file now holds the text; nothing else changes |
| Store.InvoiceStore.Info | utils/archivo.py:103-145 | None for a missing invoice; otherwise its number, file name, path and the total read from its text |
| Store.SavedInvoiceTotal | utils/archivo.py:122-129 | after a save whose names have no capital S or newline, the info of the new invoice shows its formatted total |
| Store.InsertKeeps | utils/archivo.py:174 | inserting an entry adds exactly that entry |
| Store.InsertSorted | utils/archivo.py:174 | inserting into a list sorted by number keeps it sorted |
| Store.SortByNumber | utils/archivo.py:174 | the result is sorted by number and is a permutation of the input |
| Store.InvoiceStore.ListAll | utils/archivo.py:148-179 | sorted by number; every entry is the info of a number in use; every number in use whose canonical file exists is listed |
| Store.InvoiceStore.Delete | utils/archivo.py:182-205 | true exactly when the file existed; only that file is removed |
| Store.InvoiceStore.Exists | utils/archivo.py:89-99 | true exactly when the canonical file of n is in `cache/`, that is exactly when `obtener_info_factura(n)` gives info; then n is a number in use |
| Store.InvoiceStore.Backup | utils/archivo.py:208-244 | None, changing nothing, for a missing invoice; otherwise the time-stamped backup path, and a copy of the invoice's text under it: in the backup folder, or, when the folder is "cache", among the invoices themselves, the backups then unchanged |
| Store.BackupNameCounts | utils/archivo.py:234 | a backup made into "cache" is read as an invoice file with the same number, under a name other than the canonical one |
| Editor.AvailableInvoices | pages/listar_facturas.py:66-110 | sorted by number; every entry is an invoice file with its number, path and total; every file whose number parses is listed, and no file is listed twice |
| Editor.CollectInvoices | pages/listar_facturas.py:73-106 | one entry per invoice file whose number parses, with its number, path and total, no file twice |
| Editor.PermutationKeepsDistinctFiles | pages/listar_facturas.py:106 | sorting the entries keeps their file names distinct |
| Editor.LoadedRow | pages/listar_facturas.py:231-244 | row i holds item i, or is blank past the last item |
| Editor.ReadInvoice | pages/listar_facturas.py:227 | the items parsed from the file, none when it is missing |
| Editor.PadRows | pages/listar_facturas.py:229-244 | ten rows: the parsed items first, cut at ten, then blank rows |
| Editor.EditSession.Load | pages/listar_facturas.py:225-248 | the file becomes the loaded invoice and the ten rows hold its parsed items, padded with blank rows |
| Editor.EditSession.Reload | pages/listar_facturas.py:429-447 | the ten rows hold the loaded file's parsed items again; the loaded invoice is kept |
| Editor.EditSession.Clear | pages/listar_facturas.py:418-427 | all ten rows are blank; the loaded invoice is kept |
| Editor.EditSession.SetRow | pages/listar_facturas.py:316-321 | row i is replaced and nothing else changes |
| Editor.EditSession.Cancel | pages/listar_facturas.py:449-457 | the loaded invoice and its rows are dropped |
| Editor.EditSession.Totals | pages/listar_facturas.py:266-274 | the subtotal sums price times quantity over the counted rows and is never negative; IGV is 18% of it and the total is their sum |
| Editor.SubtotalNonNegative | pages/listar_facturas.py:267-270 | the subtotal is never negative |
| Editor.EditSession.ValidProducts | pages/listar_facturas.py:323-327 | the products to save are the counted rows that `dato_valido` accepts, in order, with stripped names |
| Editor.KeptProductsValid | pages/listar_facturas.py:323-327 | every product to save has a non-empty stripped name, passes `dato_valido`, and carries price times quantity |
| Editor.KeptPassValidation | pages/listar_facturas.py:376-380 | the second `dato_valido` pass of the save never rejects a product |
| Editor.AllValid | pages/listar_facturas.py:376-380 | true exactly when every product passes `dato_valido` |
| Editor.SubtotalMatchesSavedRows | pages/listar_facturas.py:266-270 | the saved line totals never exceed the subtotal, and equal it when every counted row is also saved |
| Editor.OverpricedRowCountedNotSaved | pages/listar_facturas.py:323-327 | a row at S/. 20,000.00 adds to the subtotal but is not saved |
| Editor.PrintedTotalAdds | pages/listar_facturas.py:272-273 | the printed total is the subtotal plus the printed IGV |
| Editor.EditSession.SaveText | pages/listar_facturas.py:370-391 | no text exactly when no row is saved; otherwise the text `escribir_factura` writes for the saved products and the totals |
| Editor.EditSession.SaveEdit | pages/listar_facturas.py:370-401 | refused, changing nothing, exactly when no row is saved; otherwise the loaded file is rewritten and the session cleared; backups are untouched |
| Editor.SaveThenLoad | pages/listar_facturas.py:390-391 | loading a file just saved from the edit page gives back the saved products in order, when their names are at most 19 characters and their columns fit |
| Editor.SavedItemsAreKept | pages/listar_facturas.py:327 | each item read back carries the saved product's own name, price and quantity |

## Left out

- The Streamlit interface: page layout, buttons, messages, HTML and navigation between pages (`st.switch_page`, `st.rerun`).
- Filesystem details: file sizes, modification times, creating `cache/` and the backup folder, and `OSError` or any other failed read, write or copy. Every write succeeds in the model.
- The order of `os.listdir`: directories are sets of names. The order of equal invoice numbers after sorting is not stated.
- Store.InvoiceStore.ListAll: it does not state how often an invoice appears. "factura_1.txt" and "factura_001.txt" both produce the info of invoice 1, so duplicates are possible.
- Editor.AvailableInvoices: the first sort by file name is left out, and so is the tie order it gives equal numbers.
- Floating point: prices are two-decimal values in cents, and IGV and the total are exact reals. Printing rounds half up, whereas Python rounds the binary float half to even.
- `float()` leniency: exponents, "inf"/"nan", underscores, surrounding whitespace and more than two decimals are refused by `ParseDecimal`.
- Python's `bool` being an `int`.
- `int()` leniency: surrounding whitespace, underscores between digits and non-ASCII digits are refused by `ParseInt`. So a name such as "factura_ 5.txt", which `archivo.py` counts as invoice 5, carries no number in `Store.NumberOf`, and numbering and both listings ignore it.
- Validation.ValidarMonto: a str such as "1e3", "0.005", " 5" or "nan", which `float()` accepts, is refused, because of the `float()` leniency above; as written, "nan" is even accepted, since it fails both comparisons.
- Validation.FormatearPrecio: a str such as "1e3", "0.005", " 5" or "nan", which `float()` accepts, is printed as "S/. 0.00", because of the `float()` leniency above.
- Validation.ValidarNumeroFactura: a str such as " 5" or "1_0", which `int()` accepts, is refused, because of the `int()` leniency above.
- Unicode: whitespace is a subset of the ASCII whitespace (space, '\t', '\n', '\r', '\x0b', '\x0c'); '\x1c' to '\x1f', which `str.strip()` and `str.split()` also remove, are not whitespace here, nor is any non-ASCII space. Letters are ASCII plus the Spanish accented letters.
- Newline translation on read: a '\r' is kept as a character.
- `datetime.now()` in `crear_backup_factura` is the `timestamp` parameter.
- Store.InvoiceStore.Backup: only the folder spelled "cache" is recognised as the invoice directory. Other spellings of it, such as "cache/", "./cache" or an absolute path, are treated as separate backup folders.
- The nested confirmation buttons of the save (pages/listar_facturas.py lines 381-413). The model gives the intended save: the rewrite happens when "Guardar Cambios" is pressed. As written, the "Sí, Guardar" button sits inside `if guardar:`, and on the rerun its click causes, the form button `guardar` reads false. So line 390 is plausibly never reached, and the file is plausibly never rewritten.
- The exception path of `escribir_factura` and the clearing of `st.cache_data`.
- `numero_a_editar` and the preselection of the list.
- Summary.ListedTotalOfRender: it requires that no item row hold both "TOTAL" and "S/.". `Summary.RowWithoutS` shows that a name without a capital S suffices; a product named like the total line would be read as the total.
- Validation.CalcularIgv: the rate is a real, so a `porcentaje_igv` that `float()` refuses is not modelled; as written it gives 0.0, and `calcular_total_con_igv` gives (0.0, 0.0).
- Validation.CalcularTotalConIgv: the rate is a real, so a `porcentaje_igv` that `float()` refuses, which gives (0.0, 0.0) as written, is not modelled.
- Validation.CalcularIgv: only the refused-input case is stated; the numeric result is stated through `Validation.CalcularTotalConIgv` and `Validation.TotalConIgvDefaultRate`.
