# ÇekSenet core, modelled in Dafny

ÇekSenet tracks cheques and bills (çek/senet) and bank loans for a small business. It is a
Node/Express backend over SQLite with a React client, plus a one-off Python codemod. This
project models the business rules of its core and proves what they promise. One Dafny module
stands for each core source file:

- **Evrak (cheque/bill) status machine.**
  - `Evraklar` models `backend/src/models/evraklar.js`: the status table, the transition
    validator, create/update/updateDurum/bulkUpdateDurum/remove over in-memory tables with
    the movement log, and the list filters with their pagination.
  - `EvrakService` is the client's copy in `frontend/src/services/evraklar.ts`.
  - `EvrakRoutes` holds the request rules, the PUT forwarding, toplu-durum and the photo
    upload/delete handlers of `backend/src/routes/evraklar.js`.
- **Loans.**
  - `Krediler` holds the installment schedule, the paid/late/remaining summary and the
    list-filter normalisation.
  - `KrediTaksitler` is the row updates of the payment operations.
  - `KrediDb` is the two tables with create/update/remove, odemeYap, odemeIptal,
    erkenOdeme and guncelleGecikenler as methods.
  - `KrediRoutes` holds the route guards and body rules.
  - `KrediService` is the client's progress, totals and symbol placement.
- **Excel import.**
  - `ExcelParser` covers cell cleaning, amounts and date shapes.
  - `ExcelRows` covers header mapping, `validateRow` and row data.
  - `ExcelParse` is `parseExcelFile`'s walk and summary.
  - `ImportRoute` is the batch import loop.
  - `ImportService` is the client's file checks and row classifier.
  - `ImportUpload` is the Excel upload filter, the temporary-folder sweep and the error
    mapping.
- **Files.**
  - `Upload` covers filename sanitising, stored and thumbnail names, the photo filter, the
    error mapping and file deletion.
  - `FotografService` is the client's photo URLs, checks and batch split.
- **Stores.**
  - `Settings` is the settings over their defaults, the bulk update, the first-run setup and
    the status of `GET /api/settings/:key`. Keys named like inherited object members
    (`toString`, `constructor`) are looked up as JavaScript does.
  - `Backup` is the backup folder, its name guard, the listing, restore and retention.
  - `Bankalar` holds the banks.
  - `Cariler` holds the customers and suppliers.
  - `Users` is the admin's user handlers.
  - `Migrate` is the migration runner.
- **Helpers.**
  - `Tcmb` is the exchange-rate cache policy.
  - `System` is the choice of the LAN address.
  - `Whatsapp` covers phone normalisation, the link and the message template.
  - `Currency` covers currency lookups and display texts.
  - `DarkCleaner` is the codemod `clean_remaining_dark.py`.
- **Shared modules.** `Strings` gives JavaScript's string built-ins and `\s`. `Js` gives
  `||` on absent values. `Dates` gives (year, month, day) dates. `Pagination` gives the page
  arithmetic. `Directory` gives folder listings. `Wrappers` gives `Option`.

How the model represents the system:

- **Tables.** Database tables are `map`s or `seq`s held as fields of classes. Each
  transaction is one method whose `ensures` gives the whole new state as a function of the
  old one. The lemmas then prove what the source promises about those functions.
- **Money.** Money is integer kuruş (cents).
- **Dates.** Dates are `YYYY-MM-DD` text compared as strings, or (year, month, day) triples.
- **Parameters.** The following are parameters:
  - "today" and "now";
  - the outcomes of file-system calls and SQL statements;
  - the outcome of the central bank fetch;
  - database lookups of the import;
  - the number formatters of the locale.

Some places in the code disagree with the project's own documentation and pages. The model
follows the code and states each disagreement as a lemma:

- `EvrakService.TypesDisagreeWithServer`: the client's status type lists `odendi` but not
  `bankada`. The server's list is the other way round.
- `ExcelRows.SablonDurumlariBilinmez` and `ExcelRows.SablonDurumlariDusurulur`: the
  template's status hint names statuses the parser does not know. The parser reads those as
  `portfoy`.
- `Cariler.LinkedDeleteKeepsLinks`: the cari page warns that deleting a cari leaves its
  documents without one. The server refuses that delete instead.
- `Settings.GetAllHidesSystemKeys`: `getAll` tests `!x?.editable === false`, which because
  of operator precedence hides stored keys without a built-in entry unless system keys are
  requested.
- `DarkCleaner.RunTotal`: the codemod adds a file's count to the total before writing the
  file. A file whose write fails still counts.

## Model

| member | source | states |
|---|---|---|
| DarkCleaner.TokenLen | clean_remaining_dark.py:29 | the greedy `[^\s"'>\n]+` run: every character before the returned length is a non-delimiter and the run stops at a delimiter or at the end of the text |
| DarkCleaner.MatchLen | clean_remaining_dark.py:29 | a match is longer than ` dark:` and ends at a delimiter or at the end of the text |
| DarkCleaner.StripDark | clean_remaining_dark.py:29-32 | the substituted text is never longer than the original, so each per-file `removed` is at least 0 |
| DarkCleaner.NoMatchUnchanged | clean_remaining_dark.py:29-32 | text in which no match starts is written back unchanged, so 0 characters are removed |
| DarkCleaner.CopyRun | clean_remaining_dark.py:29 | a run of characters containing no space is copied to the output verbatim |
| DarkCleaner.OutputHasNoMatch | clean_remaining_dark.py:29 | no match starts anywhere in the substituted text: each deleted run ends at a delimiter or at the end, so no new match is formed |
| DarkCleaner.StripDarkIdempotent | clean_remaining_dark.py:29 | a second pass over the cleaned text removes nothing |
| DarkCleaner.KeptWithoutLeadingSpace | clean_remaining_dark.py:29 | a `dark:` class preceded by any character other than a literal space (a quote, a tab) is kept |
| DarkCleaner.ClassAtFrontDeleted | clean_remaining_dark.py:29 | a space, `dark:` and a non-empty token running up to a delimiter or the end are deleted together |
| DarkCleaner.DeleteOneClass | clean_remaining_dark.py:29 | the same deletion after text without spaces, which is kept in front of the cleaned remainder |
| DarkCleaner.ExampleClassAttribute | clean_remaining_dark.py:29 | `class="a dark:b c"` becomes `class="a c"` |
| DarkCleaner.Basename | clean_remaining_dark.py:38 | the name printed for a file is the part of the path after its last `/` |
| DarkCleaner.Step | clean_remaining_dark.py:22-40 | one loop turn adds exactly one report, `[OK]` iff the file was read and could be written; no file is created |
| DarkCleaner.CleanFiles | clean_remaining_dark.py:19-42 | the loop over the path list ends in the state of the fold `Run` of one step per path, from a zero total |
| DarkCleaner.RunTotal | clean_remaining_dark.py:19-33 | for distinct paths, `total_removed` is the sum of the per-file counts over the files whose read succeeded, and every path adds one report |
| DarkCleaner.RunDisk | clean_remaining_dark.py:22-36 | afterwards each listed, writable file holds its cleaned text, every other file is unchanged and no file is created |
| DarkCleaner.RunLog | clean_remaining_dark.py:21-40 | each path yields one report in order, `[OK]` iff it was readable and writable, so a file whose read fails is never written and the loop goes on after an error |
| Evraklar.ValidateDurumTransition | backend/src/models/evraklar.js:36-64 | valid iff the target differs from the current status and is in the table row of the current status; the same status gives "Evrak zaten bu durumda" and an unknown target "Geçersiz durum: …" |
| Evraklar.TableTargetsValid | backend/src/models/evraklar.js:17-28 | every target of the transition table is one of the five valid statuses |
| Evraklar.TerminalStates | backend/src/models/evraklar.js:17-55 | leaving `ciro` or `tahsil` for any other valid status is refused with the "son durumdur" message |
| Evraklar.ApiTestAccepted | backend/test-evraklar.js:349-421 | `portfoy → bankada` and `bankada → tahsil` are accepted |
| Evraklar.ApiTestForbiddenEdge | backend/test-evraklar.js:384-401 | `bankada → ciro` is a forbidden edge whose message lists `tahsil, karsiliksiz` |
| Evraklar.ApiTestTerminal | backend/test-evraklar.js:422-438 | `tahsil → bankada` is refused as leaving a terminal status |
| Evraklar.PathRank | backend/src/models/evraklar.js:17-23 | along any path of allowed transitions the remaining-depth rank drops by at least one per step |
| Evraklar.PathsAreShort | backend/src/models/evraklar.js:17-23 | the transition graph is acyclic: a path has at most 3 steps and never revisits a status |
| Evraklar.DeadEndsAreTerminal | backend/src/models/evraklar.js:17-23 | the only valid statuses with no way out are `ciro` and `tahsil` |
| Evraklar.CreateDefaults | backend/src/models/evraklar.js:242-298 | `create` stores `portfoy` when no `durum` is given, `TRY` for a falsy `para_birimi`, and null for falsy `cari_id`, `banka_id` and `doviz_kuru` |
| Evraklar.UpdateKeepsDurum | backend/src/models/evraklar.js:314-352 | `update` never changes `durum` or the id, and writing the same data twice gives the same row |
| Evraklar.BankaAdiDisplay | backend/src/models/evraklar.js:182-189 | the joined bank name when `banka_id` is set and the join found a non-empty name, else the legacy `banka_adi` or null; never the empty text |
| Evraklar.TrimAll | backend/src/models/evraklar.js:97 | each comma-separated part is trimmed, position by position |
| Evraklar.KeepValid | backend/src/models/evraklar.js:97 | exactly the valid statuses among the parts are kept |
| Evraklar.DurumList | backend/src/models/evraklar.js:96-97 | the `durum` filter keeps exactly the trimmed parts that are valid statuses |
| Evraklar.WhereDurum | backend/src/models/evraklar.js:96-102 | an `IN` term appears iff `durum` is given and keeps at least one valid status, and it lists exactly those statuses; otherwise the filter is dropped |
| Evraklar.DurumInYalniz | backend/src/models/evraklar.js:92-146 | only the `durum` filter produces an `IN` term |
| Evraklar.WhereTipi | backend/src/models/evraklar.js:105-108 | `evrak_tipi` filters only when it is `cek` or `senet` |
| Evraklar.WhereBounds | backend/src/models/evraklar.js:111-133 | each date and amount bound is added exactly when it is given non-empty |
| Evraklar.WhereSearchCari | backend/src/models/evraklar.js:136-146 | a search text becomes the pattern `%text%`, and `cari_id` filters by equality when given |
| Evraklar.SortField | backend/src/models/evraklar.js:161-162 | the ORDER BY column is always an allowed field, the requested one when allowed, else `vade_tarihi` |
| Evraklar.DescOnlyForDesc | backend/src/models/evraklar.js:163 | `desc` and `DESC` sort descending; `asc` and the empty text sort ascending |
| Evraklar.Paginate | backend/src/models/evraklar.js:157-158 | `totalPages` is ⌈total/limit⌉ and the offset is (page−1)·limit |
| Evraklar.TopluBasarili | backend/src/models/evraklar.js:449-453 | a successful id keeps the bulk-update invariant: it is counted once, only its status changes, to the new one, and one movement is appended |
| Evraklar.TopluBasarisiz | backend/src/models/evraklar.js:449-456 | a failed id keeps the invariant with the tables unchanged and its id and message recorded |
| Evraklar.EvrakStore.Create | backend/src/models/evraklar.js:242-298 | inserts one new row with the defaults and appends one movement with no old status and the note "Evrak oluşturuldu" |
| Evraklar.EvrakStore.Update | backend/src/models/evraklar.js:314-352 | null for a missing id; otherwise overwrites every field except `durum`, changing no other row and no movement |
| Evraklar.EvrakStore.UpdateDurum | backend/src/models/evraklar.js:381-432 | a missing id or a refused transition fails with its message and changes nothing; on success only that row's status changes and exactly one movement (old, new, note or null) is appended |
| Evraklar.TopluKatlaToplu | backend/src/models/evraklar.js:443-459 | the id-by-id pass counts every id once as a success or a failure, fails only sent ids, leaves unsent rows alone, moves changed rows to the new status and grows the history by one movement per success |
| Evraklar.TopluFarkliIdler | backend/src/models/evraklar.js:443-459 | with distinct ids each id succeeds exactly when it exists and its transition from its starting status is allowed: exactly those rows take the new status and the failures are the other ids, in order |
| Evraklar.TopluTekrarliId | backend/src/models/evraklar.js:443-459 | a repeated id meets the status its first occurrence set: `[1, 1]` from `portfoy` to `bankada` succeeds once and then fails as already in that status |
| Evraklar.EvrakStore.BulkUpdateDurum | backend/src/models/evraklar.js:443-459 | the new table, history, count and failures are those of the id-by-id pass over the sent ids; success plus the number of failures is the number of ids, failures carry sent ids, missing ids report "Evrak bulunamadı", unsent rows are unchanged, changed rows take the new status and the history grows by `success` movements to it |
| Evraklar.EvrakStore.Remove | backend/src/models/evraklar.js:466-489 | a missing id fails with "Evrak bulunamadı" and changes nothing; otherwise the row goes with its movements and photo rows, and the upload folder is emptied unless deleting it fails, which is ignored |
| Evraklar.EvrakStore.AddFotograf | backend/src/models/evrakFotograflar.js:59-98 | stores one new photo row for an existing evrak |
| Evraklar.EvrakStore.DeleteFiles | backend/src/middleware/upload.js:264-284 | the photo file and its thumbnail leave the disk; a missing path is skipped |
| Evraklar.EvrakStore.RemoveFotograf | backend/src/models/evrakFotograflar.js:100-119 | the photo row is removed; success iff it existed |
| Evraklar.Without | backend/src/models/evraklar.js:484-486 | the movements that survive a deletion are exactly those of other evraks |
| Evraklar.DurumTermIcinde | backend/src/models/evraklar.js:96-100 | the status filter adds an `IN` term exactly when some listed status is valid after trimming, over exactly those statuses |
| EvrakService.GetGecerliDurumlar | frontend/src/services/evraklar.ts:269-271 | the table row of a status, or the empty list for a status the table does not hold |
| EvrakService.IsDurumGecerli | frontend/src/services/evraklar.ts:276-278 | holds iff the target is in `getGecerliDurumlar` of the current status |
| EvrakService.TerminalRowsEmpty | frontend/src/services/evraklar.ts:137-143 | `ciro` and `tahsil` offer no next status |
| EvrakService.NoSelfTransition | frontend/src/services/evraklar.ts:137-143 | no status may move to itself |
| EvrakService.TablesAgree | frontend/src/services/evraklar.ts:137-143 | the client's table equals the server's row for row (backend/src/models/evraklar.js:17-23) |
| EvrakService.ClientAgreesWithServer | frontend/src/services/evraklar.ts:276-278 | the client offers a transition iff the server's `validateDurumTransition` accepts it |
| EvrakService.TypesDisagreeWithServer | frontend/src/types/index.ts:57 | the shared status type lists `odendi`, which the server rejects as "Geçersiz durum", and lacks `bankada`, which the server uses |
| EvrakService.RequestBody | frontend/src/services/evraklar.ts:183-208 | the body sent defaults `para_birimi` to `TRY` and maps falsy `cari_id`, `banka_id` and `doviz_kuru` to null, keeping the other fields |
| EvrakService.BodyMatchesServerDefaults | frontend/src/services/evraklar.ts:183-208 | the row the server stores is the same whether or not the client normalised the body, on create and on update |
| EvrakRoutes.DovizKuruRule | backend/src/routes/evraklar.js:76-82 | refused, with "Döviz seçildiğinde kur girilmesi zorunludur", iff a truthy currency other than TRY comes with a falsy rate |
| EvrakRoutes.RuleGivesStoredRate | backend/src/routes/evraklar.js:76-82 | after the rule passed, a stored foreign-currency evrak carries a rate and an unset currency is stored as TRY |
| EvrakRoutes.PutForward | backend/src/routes/evraklar.js:326-354 | the object handed to `update` is the body with `durum` dropped |
| EvrakRoutes.PutNeverChangesDurum | backend/src/routes/evraklar.js:326-354 | whatever `durum` a PUT body carries, the row keeps its status and the stored row does not depend on it |
| EvrakRoutes.PutEvrak | backend/src/routes/evraklar.js:310-380 | 404 iff the evrak is missing, with nothing changed; otherwise 200 and the row `update` writes; no movement is added |
| EvrakRoutes.IdsOf | backend/src/routes/evraklar.js:563 | the ids passed on are the body's integers, position by position |
| EvrakRoutes.TopluDurum | backend/src/routes/evraklar.js:531-580 | 400 iff the body rules fail, with nothing changed; otherwise success plus the number of failures is the number of ids, failures carry sent ids, the message is `<success> evrak güncellendi` and the history grows by `success` |
| EvrakRoutes.TopluRejects | backend/src/routes/evraklar.js:533-539 | an empty list, a zero id, a non-integer id or an unknown status is refused; a list of positive integers with `tahsil` passes |
| EvrakRoutes.UploadFotograflar | backend/src/routes/evraklar.js:634-735 | an invalid id, a missing evrak (checked before multer stores anything), a multer error or no files leave disk and table unchanged; otherwise uploaded + failed = files received, 201 iff at least one file was saved, else 500 |
| EvrakRoutes.SaveOne | backend/src/routes/evraklar.js:678-702 | one processed file becomes one new photo record of the evrak, with no other record changed |
| EvrakRoutes.SaveEach | backend/src/routes/evraklar.js:674-709 | each file is processed independently: saved + failed = files, at least one saved iff some file succeeded, every saved id is a new record of the evrak |
| EvrakRoutes.DeleteFotograf | backend/src/routes/evraklar.js:741-800 | 404 for a missing photo and 400 for a photo of another evrak, both changing nothing; otherwise the files leave the disk and the row is deleted |
| Krediler.TaksitListesiOlustur | backend/src/models/krediler.js:74-93 | exactly `vade_ay` installments numbered 1..n in order, each of the loan with the monthly amount and status `bekliyor`, installment i due i months after the day `new Date` makes of the start, which rolls a day the month lacks into the next month; every due date is a real date and the dates strictly increase |
| Krediler.HesaplaOzet | backend/src/models/krediler.js:368-398 | the loop computes the summary `OzetOf`, and paid + late + remaining = total = number of installments |
| Krediler.OzetPartition | backend/src/models/krediler.js:378-393 | every installment is counted in exactly one class: the three counters are the sizes of the paid, late and remaining classes (an independent filter) and add up to the length |
| Krediler.OzetAmounts | backend/src/models/krediler.js:380-393 | the paid total sums each paid installment's `odenen_tutar`, or `tutar` when that is missing or zero, the late total sums the late ones, and the debt sums every unpaid installment, late or not |
| Krediler.OdenenTutarSum | backend/src/models/krediler.js:380-382 | a paid installment contributes `odenen_tutar`, or `tutar` when that is missing or zero |
| Krediler.GecikenTutarSum | backend/src/models/krediler.js:383-386 | an installment is late iff it is `gecikti`, or `bekliyor` with a due date before today, and adds its amount to the late total |
| Krediler.KalanBorcSum | backend/src/models/krediler.js:383-391 | every unpaid installment adds its amount to `kalan_borc` |
| Krediler.GecikenWithinKalanBorc | backend/src/models/krediler.js:383-391 | with non-negative amounts, `geciken_tutar ≤ kalan_borc` |
| Krediler.OdenenPositiveIff | backend/src/models/krediler.js:379-381 | `odenen_taksit > 0` iff some installment is `odendi` |
| Krediler.OfClassAppend | backend/src/models/krediler.js:378-393 | the class filter distributes over concatenation |
| Krediler.SumsAppend | backend/src/models/krediler.js:378-393 | the amount sums distribute over concatenation |
| Krediler.NewKredi | backend/src/models/krediler.js:229-266 | the stored loan is `aktif`, `toplam_odeme = aylik_taksit · vade_ay`, `para_birimi` defaults to TRY only when absent, and falsy bank id and notes become null |
| Krediler.UpdatedKredi | backend/src/models/krediler.js:306-331 | `update` changes only `banka_id` and `notlar` (falsy ones to null); every other field stays |
| Krediler.KrediWhere | backend/src/models/krediler.js:119-135 | a status or type filter is added iff it is one of the known values; a bank filter iff given |
| Krediler.KrediSortField | backend/src/models/krediler.js:151-152 | the sort column is an allowed field, the requested one when allowed, else `baslangic_tarihi` |
| Krediler.AscOnlyForAsc | backend/src/models/krediler.js:153 | only an order spelling `asc` in any case sorts ascending; `desc`, the empty text and any other length sort descending |
| Dates.DaysIn | backend/src/models/krediler.js:80-81 | a month has 28 to 31 days, December 31 |
| Dates.AddMonthsShape | backend/src/models/krediler.js:79-86 | `setMonth(getMonth() + k)` on a real date gives a real date k months on, or k + 1 months on when a day after the 28th overflows, into the first three days |
| Dates.AddMonthsIncreasing | backend/src/models/krediler.js:78-86 | each installment is due strictly after the previous one, even across overflowing months |
| Dates.AddMonthsMonotone | backend/src/models/krediler.js:78-86 | due dates are ordered by their month offsets |
| Dates.BeforeByMonthIndex | backend/src/models/krediler.js:86 | an earlier month, or the same month and an earlier day, gives an earlier `YYYY-MM-DD` text |
| Dates.BeforeTransitive | backend/src/models/krediler.js:385 | the date-text order is transitive |
| Dates.BeforeIrreflexive | backend/src/models/krediler.js:385 | no date is before itself |
| Dates.AddDaysForward | backend/src/utils/excelParser.js:76-97 | adding days to a real date moves strictly forward to a real date |
| Dates.AddDaysAdd | backend/src/models/krediler.js:79-86 | adding `a + b` days is adding `a` days, then `b` |
| Dates.FromIso | backend/src/models/krediler.js:77 | `new Date` on a `YYYY-MM-DD` text with month 01-12 and day 01-31 always gives a real date, and a real date is taken as written |
| Dates.FromIsoCountsDays | backend/src/models/krediler.js:77 | the parsed date is the day `d - 1` days after the first of the month written, so a day the month lacks carries into the next month |
| Dates.FromIsoExample | backend/src/models/krediler.js:77 | 2025-02-30 is read as 2 March 2025 and 2024-02-30 as 1 March 2024 |
| Dates.OverflowExample | backend/src/models/krediler.js:79-86 | a loan starting on 31 January 2023 is due on 3 March, 31 March and 1 May; 15 November 2024 plus 3 months is 15 February 2025 |
| Pagination.TotalPages | backend/src/models/cariler.js:47-48 | `totalPages` is ⌈total/limit⌉ |
| Pagination.PageRows | backend/src/models/cariler.js:245-256 | `LIMIT ? OFFSET ?`: at most `limit` rows, the rows from the offset on, in order |
| Pagination.NoPagesIffEmpty | backend/src/models/cariler.js:246 | there are no pages exactly when there are no rows |
| Pagination.RowOnItsPage | backend/src/models/cariler.js:245-246 | every row lies on one page numbered 1..totalPages |
| Pagination.PagesPastTheEndEmpty | backend/src/models/cariler.js:245-256 | a page past the last one is empty |
| KrediTaksitler.Find | backend/src/models/krediTaksitler.js:40-44 | the position of the row with that id, or none when no row has it |
| KrediTaksitler.PayRows | backend/src/models/krediTaksitler.js:149-173 | paying touches only the row with that id; every other row, and every row's id and loan, stay |
| KrediTaksitler.CancelRows | backend/src/models/krediTaksitler.js:220-234 | cancelling touches only the row with that id |
| KrediTaksitler.PayAllRows | backend/src/models/krediTaksitler.js:288-305 | early payoff leaves other loans' rows and already paid rows unchanged |
| KrediTaksitler.MarkLateRows | backend/src/models/krediTaksitler.js:333-345 | the overdue update keeps every row's id and loan |
| KrediTaksitler.RowsOf | backend/src/models/krediTaksitler.js:26-35 | the rows of one loan are exactly the table's rows with that loan id |
| KrediTaksitler.Without | backend/src/models/krediler.js:353 | after the cascade the table holds exactly the rows of other loans |
| KrediTaksitler.WithoutKeepsUnique | backend/src/models/krediler.js:353 | the cascade keeps installment ids unique |
| KrediTaksitler.UnpaidOfEmptyIff | backend/src/models/krediTaksitler.js:175-190 | a loan has no unpaid installment iff every one of its rows is `odendi` |
| KrediTaksitler.PayThenCancelRestores | backend/test-taksitler-model.js:83-95 | paying and cancelling a waiting, not yet due installment restores every row except the note given with the payment; with no note the table is restored exactly |
| KrediTaksitler.PayThenCancelAddsNoPaid | backend/test-krediler-api.js:127-160 | after pay-then-cancel no loan has a paid installment it did not have before, so a deletable loan stays deletable |
| KrediTaksitler.PayAllClears | backend/src/models/krediTaksitler.js:288-305 | after early payoff the loan has nothing left unpaid |
| KrediTaksitler.PayAllPaysTutar | backend/src/models/krediTaksitler.js:288-305 | every row early payoff changes becomes `odendi` with `odenen_tutar` equal to its own amount |
| KrediTaksitler.CountLateZeroIff | backend/src/models/krediTaksitler.js:333-349 | the reported count is 0 iff no row is a waiting, overdue installment of an active loan |
| KrediTaksitler.MarkLateOnlyCandidates | backend/src/models/krediTaksitler.js:333-349 | only waiting rows due before today on active loans flip to `gecikti`, and a second run on the same day flips none |
| KrediDb.KrediTablolari.Create | backend/src/models/krediler.js:229-290 | adds one active loan with `toplam_odeme = aylik_taksit · vade_ay` and appends one waiting, unpaid installment per month, numbered and dated as the schedule says from the rolled-over start |
| KrediDb.KrediTablolari.InsertPlan | backend/src/models/krediler.js:274-284 | the insert loop appends the schedule's rows in order, each with the next id and no payment |
| KrediDb.KrediTablolari.Update | backend/src/models/krediler.js:306-331 | null for a missing loan; otherwise only bank and notes change, and no installment |
| KrediDb.KrediTablolari.Remove | backend/src/models/krediler.js:339-357 | succeeds iff the loan exists and has no paid installment; "Kredi bulunamadı" or the paid-installment refusal otherwise, changing nothing; on success the loan and its installments go |
| KrediDb.KrediTablolari.Sil | backend/src/models/krediler.js:353-354 | the delete removes the loan and, by the cascade, exactly its installments |
| KrediDb.KrediTablolari.OdemeYap | backend/src/models/krediTaksitler.js:132-200 | succeeds iff the installment exists, is unpaid and its loan is active ("Taksit bulunamadı", "Bu taksit zaten ödenmiş" otherwise, changing nothing); pays only that row (date defaults to today, amount to its own) and closes the loan iff nothing of it is left unpaid |
| KrediDb.KrediTablolari.OdemeIptal | backend/src/models/krediTaksitler.js:207-252 | succeeds iff the installment is paid; the row becomes `gecikti` if due before today else `bekliyor`, with date and amount cleared; a `kapandi` loan reopens, an `erken_kapandi` one keeps its status |
| KrediDb.KrediTablolari.ErkenOdeme | backend/src/models/krediTaksitler.js:261-321 | fails without change for a missing or inactive loan or one with nothing unpaid; otherwise every unpaid row is paid in full (note `Erken ödeme` when none is given), the loan is `erken_kapandi`, and the count and total are those of the previously unpaid rows |
| KrediDb.KrediTablolari.GuncelleGecikenler | backend/src/models/krediTaksitler.js:333-349 | flips exactly the waiting, overdue installments of active loans, reports how many, changes no loan, and leaves nothing for a second run |
| KrediDb.AppendFresh | backend/src/models/krediler.js:274-284 | a row with a fresh id keeps installment ids unique |
| KrediDb.OdenenAnyPaid | backend/src/models/krediler.js:345-350 | the loan summary's paid counter is positive exactly when the table holds a paid row of the loan, which is the guard of `remove` |
| KrediRoutes.CreateErrorsIff | backend/src/routes/krediler.js:23-47 | a new loan's body draws no message exactly when the principal is at least 0.01, the rate lies in 0..200, the term in 1..360 months and the loan type is a known one |
| KrediRoutes.TrimmedNote | backend/src/routes/krediler.js:45-47 | a truthy note reaches the handler trimmed; a falsy one is passed on untouched |
| KrediRoutes.CreateData | backend/src/routes/krediler.js:298-322 | the data handed to `create` carries the body's principal, rate, term, type and start date |
| KrediRoutes.PostKredi | backend/src/routes/krediler.js:289-340 | 400 with the rule messages exactly when a bound fails, and nothing is stored; otherwise 201, one more loan and one installment row per month of the term, due dates counted from the day `new Date` makes of the start, so that `2025-02-30` counts from 2 March |
| KrediRoutes.PutKredi | backend/src/routes/krediler.js:351-392 | only the bank and the note can change: principal, rate, term, status, total and every installment stay; 404 for an unknown loan; the stored note is the trimmed one or null |
| KrediRoutes.OwnershipStatus | backend/src/routes/krediler.js:524-539 | 404 when no installment has the id, 400 when it belongs to another loan, and the guard passes otherwise |
| KrediRoutes.OdeRoute | backend/src/routes/krediler.js:499-582 | 400 with the rule messages when an id, the ISO payment date, the amount or the note fails its rule; 404 exactly when the rules pass and no installment has the id; the foreign-installment message; 200 exactly when the rules pass and the installment belongs to the loan and can be paid, which pays it with the date, amount and trimmed note sent; nothing changes on any failure |
| KrediRoutes.IptalRoute | backend/src/routes/krediler.js:590-655 | 200 exactly when the installment belongs to the loan and is paid; nothing changes on any failure |
| KrediRoutes.ErkenOdemeRoute | backend/src/routes/krediler.js:664-720 | 400 with the rule messages when the id, the ISO date or the note fails its rule; 200 exactly when the rules pass, the loan is active and has unpaid installments, which are then all paid on the given or today's date with the trimmed note or "Erken ödeme"; 400 changes nothing |
| KrediRoutes.Yaklasan | backend/src/models/krediTaksitler.js:99-117 | the upcoming list holds exactly the waiting installments of active loans due from today up to the given number of days ahead |
| KrediRoutes.YaklasanRoute | backend/src/routes/krediler.js:218-245 | the day count defaults to 7, a value outside 1..90 is refused, and the answer counts exactly the listed installments |
| KrediService.HesaplaIlerleme | frontend/src/services/krediler.ts:285-288 | the percentage is the nearest whole number to paid over total, within half a point; 0 for a loan without installments; an exact tie rounds up in the model, where the program's doubles may round it down |
| KrediService.IlerlemeBounds | frontend/src/services/krediler.ts:285-288 | the percentage never exceeds 100 and is 100 once everything is paid |
| KrediService.IlerlemeFullOnlyWhenPaid | frontend/src/services/krediler.ts:285-288 | below 200 installments, 100 is shown only when every installment is paid |
| KrediService.IlerlemeRoundsUpToFull | frontend/src/services/krediler.ts:285-288 | from 200 installments on, 199 of 200 and 359 of 360 paid already show 100 |
| KrediService.IlerlemeMonotone | frontend/src/services/krediler.ts:285-288 | paying more installments never lowers the percentage |
| KrediService.TotalsAgreeWithServer | frontend/src/services/krediler.ts:247-256 | the client's total equals the total the server stores on create, and principal plus interest gives it back |
| KrediService.FormatKrediTutar | frontend/src/services/krediler.ts:261-273 | TRY amounts end in " ₺"; every other currency puts its symbol before the amount |
| KrediService.SymbolsDistinct | frontend/src/services/krediler.ts:212-218 | no two currencies share a symbol, so the symbol tells the currency |
| ExcelParser.CleanCellValue | backend/src/utils/excelParser.js:165-180 | an empty cell cleans to the empty text, a text cell to its trimmed text, and no cleaned text starts or ends in white space |
| ExcelParser.CleanCellValueIdempotent | backend/src/utils/excelParser.js:165-180 | cleaning a cleaned value again changes nothing |
| ExcelParser.Remove | backend/src/utils/excelParser.js:195-199 | a global replace by the empty text keeps only characters of the input outside the class |
| ExcelParser.CommasToDots | backend/src/utils/excelParser.js:199 | every comma becomes a point and every other character stays in place |
| ExcelParser.CleanAmountText | backend/src/utils/excelParser.js:195-199 | the cleaned amount holds no currency symbol, no white space and no comma, and every character other than a point comes from the input |
| ExcelParser.LeadingDigits | backend/src/utils/excelParser.js:201 | the digits `parseFloat` reads: the longest run of digits at the start |
| ExcelParser.ParseFloat | backend/src/utils/excelParser.js:201 | a finite result is made of the digits it read, at least one of them |
| ExcelParser.ParseAmount | backend/src/utils/excelParser.js:186-208 | only a positive number comes out; a missing value, the empty text and other types give null; a number is kept exactly when positive; a text is read from its cleaned form |
| ExcelParser.CleanDigitsWithPoint | backend/src/utils/excelParser.js:195-199 | on digits with a decimal point the cleaning drops only the point, as if it separated thousands |
| ExcelParser.ParseFloatDigits | backend/src/utils/excelParser.js:201 | a plain run of digits is read whole |
| ExcelParser.AmountOfCell | backend/src/utils/excelParser.js:480-490 | the intended reading of an amount cell: a number cell passes as the number it is, a text cell as its trimmed text |
| ExcelParser.AmountCellAsWrittenDropsPoint | backend/src/utils/excelParser.js:480-490 | as written, a positive number cell with a fraction reaches the amount parser as text and loses its point, so its value is multiplied by a power of ten |
| ExcelParser.TemplateRateAsWritten | backend/src/utils/excelParser.js:480-490 | a rate cell holding 35.5 is read as 355 as written |
| ExcelParser.TemplateRateIntended | backend/src/utils/excelParser.js:186-192 | passed as a number, the same cell is read as 35.5 |
| ExcelParser.AmountOfCellKeepsNumber | backend/src/utils/excelParser.js:186-192 | read as intended, a positive number cell keeps its value and is accepted exactly when positive; text cells read as before |
| ExcelParser.MatchThree | backend/src/utils/excelParser.js:73 | a match yields three digit runs of the lengths the pattern allows |
| ExcelParser.MatchThreeSound | backend/src/utils/excelParser.js:73 | a match is the whole text: the three runs joined by the separator |
| ExcelParser.MatchThreeComplete | backend/src/utils/excelParser.js:73 | every text of the shape matches, with its own three runs |
| ExcelParser.MatchThreeWithoutSeparator | backend/src/utils/excelParser.js:73 | a text without the separator never matches |
| ExcelParser.NewLocalDate | backend/src/utils/excelParser.js:75-76 | `new Date(y, m - 1, d)` always names a real calendar day |
| Dates.AddDaysWithinMonth | backend/src/utils/excelParser.js:75-76 | counting days from the first of a month reaches each day of that month |
| ExcelParser.NewLocalDateOfRealDate | backend/src/utils/excelParser.js:75-76 | a real date from year 100 on is taken as written |
| ExcelParser.NewLocalDateDayZero | backend/src/utils/excelParser.js:75-76 | day 0 of March 2024 is 29 February 2024 |
| ExcelParser.NewLocalDateMonthOverflow | backend/src/utils/excelParser.js:75-76 | month 13 of 2024 is January 2025 |
| ExcelParser.NewLocalDateTwoDigitYear | backend/src/utils/excelParser.js:75-76 | year 25 is taken as 1925 |
| ExcelParser.NewLocalDateDayOverflow | backend/src/utils/excelParser.js:75-76 | 31 February 2023 is 3 March 2023 |
| ExcelParser.ParseDate | backend/src/utils/excelParser.js:114-154 | a falsy value gives null, a date cell is kept, a number below 1 gives null, and rich text, formulas, booleans and other objects give null |
| ExcelParser.ParseDateShapes | backend/src/utils/excelParser.js:128-144 | trimmed text is tried in the Turkish shapes first, then the ISO shape, and only then handed to the environment's own date parser |
| ExcelParser.ParseDateText | backend/src/utils/excelParser.js:128-144 | a text cell is read from its trimmed text |
| ExcelParser.TurkishShapeMatches | backend/src/utils/excelParser.js:69-90 | a `D.M.YYYY` or `D/M/YYYY` text is read as day, month and year |
| ExcelParser.IsoShapeMatches | backend/src/utils/excelParser.js:96-107 | a `YYYY-M-D` text is not a Turkish date and is read as year, month and day |
| ExcelParser.ParseDateTurkishShape | backend/src/utils/excelParser.js:114-154 | a cell holding a Turkish-shaped date text gives the date `new Date` makes of its numbers |
| ExcelParser.ParseDateIsoShape | backend/src/utils/excelParser.js:114-154 | a cell holding an ISO-shaped date text gives the date `new Date` makes of its numbers |
| ExcelRows.BaslikKucuk | backend/src/utils/excelParser.js:445 | lower-casing maps each character of a header and keeps its length |
| ExcelRows.EslemelerTanim | backend/src/utils/excelParser.js:444-451 | a column is in the mapping exactly when its header cell names a field, and it maps to that field |
| ExcelRows.BasliklarTanim | backend/src/utils/excelParser.js:444-451 | column `c` is mapped exactly when its header cell is one `KOLON_MAPPING` knows |
| ExcelRows.HeaderMapping | backend/src/utils/excelParser.js:444-451 | the header loop builds exactly the column mapping of the header row |
| ExcelRows.Eksik | backend/src/utils/excelParser.js:454-456 | the missing columns are exactly the required fields no column feeds |
| ExcelRows.EksikOlanlar | backend/src/utils/excelParser.js:456 | the filter keeps exactly the listed fields absent from the mapping's values |
| ExcelRows.HepsiTanim | backend/src/utils/excelParser.js:467-471 | the test from the last element back holds exactly when every element passes |
| ExcelRows.BosSatirHepsi | backend/src/utils/excelParser.js:466-473 | a row is blank exactly when every cell cleans to the empty text |
| ExcelRows.IsEmptyRow | backend/src/utils/excelParser.js:466-473 | the blank-row loop answers true exactly for blank rows |
| ExcelRows.AlanHucresi | backend/src/utils/excelParser.js:480-490 | a field gets no cell exactly when every column mapped to it is empty |
| ExcelRows.AlanHucresiSon | backend/src/utils/excelParser.js:480-490 | a field's cell is the one in the last mapped column that holds a value |
| ExcelRows.Metin | backend/src/utils/excelParser.js:487 | a field has no text exactly when its cell is empty |
| ExcelRows.SatirVerisiStep | backend/src/utils/excelParser.js:480-490 | one more cell changes at most the field its column feeds |
| ExcelRows.OkumalarYalnizSayidaAyrilir | backend/src/utils/excelParser.js:480-490 | the reading as written and the intended reading give the same row unless the amount or rate cell holds a number |
| ExcelRows.RowData | backend/src/utils/excelParser.js:476-490 | the loop over cells builds exactly the row data of the mapping, under the reading of amount cells it is given: as written or as intended |
| ExcelRows.ParaSonucu | backend/src/utils/excelParser.js:305-314 | the currency is TRY when none is given, a known code after upper-casing, or the text as given when it is not one |
| ExcelRows.CariIdSonucu | backend/src/utils/excelParser.js:373-384 | a counterparty id comes only from a lookup of the trimmed name |
| ExcelRows.DurumSonucu | backend/src/utils/excelParser.js:341-351 | the status is always a known one: the given one when known after lower-casing, `portfoy` otherwise |
| ExcelRows.Kisalt | backend/src/utils/excelParser.js:354-362 | a given text is trimmed and cut to `n` characters, kept whole when short enough, and null when not given |
| ExcelRows.EvrakTipiKontrol | backend/src/utils/excelParser.js:260-270 | the type check appends exactly its expected error at the end of the list and normalises a known type |
| ExcelRows.EvrakNoKontrol | backend/src/utils/excelParser.js:273-279 | the number check appends exactly its expected error at the end of the list and trims the number |
| ExcelRows.EvrakNoMevcutKontrol | backend/src/utils/excelParser.js:281-283 | a number already recorded draws exactly its warning |
| ExcelRows.TutarKontrol | backend/src/utils/excelParser.js:287-292 | the amount check records its error exactly when the amount cannot be read, appending it at the end of the list |
| ExcelRows.VadeKontrol | backend/src/utils/excelParser.js:295-300 | the due-date check records its error exactly when the date cannot be read, appending it at the end of the list |
| ExcelRows.ParaBirimiKontrol | backend/src/utils/excelParser.js:305-314 | the currency check records exactly its expected error, appending it at the end of the list |
| ExcelRows.DovizKuruKontrol | backend/src/utils/excelParser.js:317-326 | TRY has no rate; another currency needs a positive rate or records an error |
| ExcelRows.EvrakTarihiKontrol | backend/src/utils/excelParser.js:329-339 | an issue date that cannot be read is dropped with exactly its warning |
| ExcelRows.DurumKontrol | backend/src/utils/excelParser.js:341-351 | an unknown status draws exactly its warning and becomes `portfoy` |
| ExcelRows.BankaAdiKontrol | backend/src/utils/excelParser.js:354-362 | the bank name is cut to 100 characters, with a warning exactly when it was longer |
| ExcelRows.KesideciKontrol | backend/src/utils/excelParser.js:365-373 | the drawer is cut to 200 characters, with a warning exactly when it was longer |
| ExcelRows.CariKontrol | backend/src/utils/excelParser.js:376-387 | the counterparty is looked up by trimmed name; not found is a warning and leaves no id |
| ExcelRows.NotlarKontrol | backend/src/utils/excelParser.js:390-398 | the notes are cut to 1000 characters, with a warning exactly when they were longer |
| ExcelRows.HatalarTamam | backend/src/utils/excelParser.js:254-300 | after the last check the recorded errors are exactly the expected ones |
| ExcelRows.UyarilarTamam | backend/src/utils/excelParser.js:280-398 | after the last check the recorded warnings are exactly the expected ones |
| ExcelRows.ValidateRow | backend/src/utils/excelParser.js:254-406 | the row keeps the normalised fields, and its errors and warnings are exactly the expected ones as ordered lists, in the order the checks run: at most six errors and seven warnings |
| ExcelRows.HatalarSirayla | backend/src/utils/excelParser.js:260-326 | the six error checks, each pushing at most one error at the end, leave exactly the expected errors in check order |
| ExcelRows.UyarilarSirayla | backend/src/utils/excelParser.js:281-398 | the seven warning checks, each pushing at most one warning at the end, leave exactly the expected warnings in check order |
| ExcelRows.GecerliKosullari | backend/src/utils/excelParser.js:401-405 | a row is valid exactly when its type is known, its number given and at most 50 long, its amount and due date read, its currency known and a foreign currency has a rate |
| ExcelRows.BeklenenHata | backend/src/utils/excelParser.js:254-326 | every failed condition has an error that must be recorded |
| ExcelRows.HataYokGecerli | backend/src/utils/excelParser.js:254-326 | when every condition holds no error is expected |
| ExcelRows.UyarilarGecerliligiEtkilemez | backend/src/utils/excelParser.js:401-405 | warnings never decide validity: rows equal in the validated fields are valid together |
| ExcelRows.DurumOlduguGibi | backend/src/utils/excelParser.js:341-351 | a status written in lower-case letters is kept when known and read as `portfoy` otherwise |
| ExcelRows.SablonDurumlariBilinmez | backend/src/routes/import.js:289 | only two of the six statuses the template names are statuses the parser knows |
| ExcelRows.SablonDurumlariDusurulur | backend/src/routes/import.js:289 | the template's unknown statuses are read as `portfoy` |
| ExcelRows.KucukDurumUyarisi | backend/src/utils/excelParser.js:341-346 | an unknown lower-case status draws the replaced-status warning |
| ExcelRows.DurumUyarisi | backend/src/utils/excelParser.js:341-346 | every status unknown after normalisation draws the warning |
| ExcelParse.Suz | backend/src/utils/excelParser.js:437-505 | the kept rows are exactly the rows that pass, no more than there were |
| ExcelParse.SuzSirali | backend/src/utils/excelParser.js:437-505 | keeping some of the rows keeps their order |
| ExcelParse.VeriSatirlari | backend/src/utils/excelParser.js:460-473 | the validated rows are exactly the rows that are neither the header nor blank |
| ExcelParse.VeriSatirlariSirali | backend/src/utils/excelParser.js:437-505 | the data rows keep the sheet's order |
| ExcelParse.OzetDengesi | backend/src/utils/excelParser.js:509-514 | valid and invalid rows add up to the total, and the warned rows are at most the total |
| ExcelParse.OzetHepsiGecerli | backend/src/utils/excelParser.js:509-514 | when every row is valid, no row counts as invalid |
| ExcelParse.ParseExcelFile | backend/src/utils/excelParser.js:417-521 | a file that cannot be read or has no sheet is an error; otherwise the missing-columns error, the no-data error, or every data row validated in order with the summary; the amount and rate cells are read as written or as intended, as the caller chooses |
| ImportRoute.GecerliSatirlar | backend/src/routes/import.js:169 | the filter keeps exactly the rows whose `gecerli` is `true` |
| ImportRoute.AllKept | backend/src/routes/import.js:169 | rows all marked valid pass the filter whole, in order |
| ImportRoute.ImportVerisi | backend/src/routes/import.js:195-208 | the data handed to `create` always carries a currency and a status |
| ImportRoute.ImportVarsayilanlari | backend/src/routes/import.js:195-208 | an imported row keeps its own values where it gives them and gets TRY, `portfoy` and null where it does not; the bank id is never sent |
| ImportRoute.HataKaydi | backend/src/routes/import.js:217-231 | a failure entry names the row and its number and carries a non-empty message |
| ImportRoute.SonEklenen | backend/src/routes/import.js:192-237 | each valid row either joins the created rows or adds its failure entry |
| ImportRoute.BasariliArtiBasarisiz | backend/src/routes/import.js:192-237 | every valid row is counted once, as created or as failed |
| ImportRoute.SatirAktar | backend/src/routes/import.js:193-236 | a row is created under a fresh id with the import defaults exactly when `create` succeeds; otherwise the table is unchanged and the failure is recorded |
| ImportRoute.SatirlariIsle | backend/src/routes/import.js:192-237 | the loop creates the valid rows in order, lists every failure in order and does not stop at one |
| ImportRoute.Import | backend/src/routes/import.js:156-251 | 400 without rows or without a valid row, changing nothing; otherwise every valid row is tried and the run succeeds when at least one was created |
| ImportService.ValidateExcelFile | frontend/src/services/import.ts:142-152 | no message exactly when the type and size checks pass; the type message comes before the size message |
| ImportService.ExcelTypeAndSize | frontend/src/services/import.ts:115-137 | an Excel MIME type passes under any name, a `.xlsx` or `.xls` name under any type, and the limit is 5 MiB to the byte |
| ImportService.GetRowStatus | frontend/src/services/import.ts:274-282 | an invalid row or one with errors is an error, otherwise a row with warnings is a warning, otherwise valid |
| ImportService.BadgeAndTextFollowStatus | frontend/src/services/import.ts:304-333 | badge colour and status text each tell the three statuses apart: red/Hatalı, yellow/Uyarı, green/Geçerli |
| ImportService.StatusOfValidatedRow | frontend/src/services/import.ts:274-282 | on a row the parser validated, red means a required check failed, and warnings alone never make a row red |
| ImportService.GecerliSatirlar | frontend/src/services/import.ts:245 | the rows sent are exactly the valid ones |
| ImportService.ImportEvraklar | frontend/src/services/import.ts:243-256 | it throws, sending nothing, exactly when no row is valid; otherwise it sends exactly the valid rows |
| ImportService.RouteKeepsEverySentRow | backend/src/routes/import.js:169 | every row the client sends carries `gecerli: true`, so the route's filter keeps them all |
| ImportUpload.FileFilter | backend/src/middleware/importUpload.js:63-84 | the extension alone decides: an Excel extension is accepted whatever the MIME type, any other is refused with `INVALID_FILE_TYPE` and its message |
| ImportUpload.IzinVerilenler | backend/src/middleware/importUpload.js:68 | the refusal lists the allowed extensions as ".xlsx, .xls" |
| ImportUpload.MimeTypeNeverRejects | backend/src/middleware/importUpload.js:74-83 | the filter's answer does not depend on the MIME type |
| ImportUpload.StoredNameOfAccepted | backend/src/middleware/importUpload.js:49-56 | an accepted file is stored under an `import_` name with its own Excel extension, lower-cased |
| ImportUpload.HataYaniti | backend/src/middleware/importUpload.js:155-201 | multer errors and the filter's code get 400 with their messages; any other error gets 500 |
| ImportUpload.RejectionReachesClient | backend/src/middleware/importUpload.js:188-193 | a refused file reaches the client as 400 with the filter's message |
| ImportUpload.Silinecekler | backend/src/middleware/importUpload.js:130-141 | the sweep removes exactly the listed files other than `.gitkeep` older than an hour |
| ImportUpload.Supurulmus | backend/src/middleware/importUpload.js:122-149 | after a sweep exactly the files that are not stale remain, unchanged |
| ImportUpload.SupurmeKararli | backend/src/middleware/importUpload.js:122-149 | a second sweep at the same moment removes nothing |
| ImportUpload.SilineceklerTekil | backend/src/middleware/importUpload.js:128-139 | the count of removals is the number of distinct stale files |
| ImportUpload.KalanHepsi | backend/src/middleware/importUpload.js:130-141 | removing file by file in listing order ends in the swept folder |
| ImportUpload.TempDir.DeleteTempFile | backend/src/middleware/importUpload.js:102-116 | an empty path changes nothing; otherwise the file is gone, whether or not it was there |
| ImportUpload.TempDir.CleanupTempFiles | backend/src/middleware/importUpload.js:122-149 | the folder ends swept and the count is the number of files removed |
| ImportUpload.TempDir.HandleImportUploadError | backend/src/middleware/importUpload.js:155-201 | a stored upload is deleted before the response, which is the one for the error |
| Upload.Transliterated | backend/src/middleware/upload.js:41-56 | each character becomes its Latin letter, one for one |
| Upload.AllEntriesAreLatin | backend/src/middleware/upload.js:53-56 | replacing the table's entries one after the other gives each character its table letter: no replacement feeds a later one |
| Upload.ReplaceChar | backend/src/middleware/upload.js:54-55 | splitting on a character and joining with another replaces every occurrence in place |
| Upload.KeepSafe | backend/src/middleware/upload.js:61-62 | only letters, digits, `_`, `-` and `.` remain, and a name of those alone is kept |
| Upload.Squeeze | backend/src/middleware/upload.js:64-65 | no doubled underscore is left; a name without one is kept |
| Upload.StripLeading | backend/src/middleware/upload.js:67-68 | exactly the leading underscores are removed |
| Upload.StripTrailing | backend/src/middleware/upload.js:67-68 | exactly the trailing underscores are removed |
| Upload.SanitizeFilename | backend/src/middleware/upload.js:39-71 | the loop over the Turkish letters and the four passes compute the sanitized name |
| Upload.SanitizedIsClean | backend/src/middleware/upload.js:39-71 | whatever the input, the name is non-empty, of safe characters, with no doubled underscore and no underscore at either end |
| Upload.CleanUnchanged | backend/src/middleware/upload.js:39-71 | a clean name is left as it is |
| Upload.SanitizeIdempotent | backend/src/middleware/upload.js:39-71 | sanitizing twice is sanitizing once |
| Upload.SanitizeExampleSpace | backend/src/middleware/upload.js:39-71 | "ş a" becomes "s_a" |
| Upload.SanitizeExampleEmpty | backend/src/middleware/upload.js:70 | a name with nothing left becomes `dosya` |
| Upload.LastDot | backend/src/middleware/upload.js:81 | the position of the last point, or none when there is none |
| Upload.Extname | backend/src/middleware/upload.js:81 | the extension starts with a point, holds no other point and ends the name |
| Upload.Basename | backend/src/middleware/upload.js:82 | the extension is cut off only when the name ends with it exactly |
| Upload.UpperCaseExtensionKept | backend/src/middleware/upload.js:79-87 | as written, "Photo.JPG" keeps ".JPG" in its stem and is stored as "…_Photo.JPG.jpg" |
| Upload.ExtensionOf | backend/src/middleware/upload.js:81-82 | a stem followed by an extension splits back into that stem and extension |
| Upload.FixedIgnoresExtensionCase | backend/src/middleware/upload.js:79-87 | corrected, two names differing only in the case of the extension are stored under the same name |
| Upload.FileFilter | backend/src/middleware/upload.js:137-154 | a file is accepted exactly when its MIME type and its lower-cased extension are both allowed; the type is checked first |
| Upload.UniqueFilename | backend/src/middleware/upload.js:79-87 | the stored name starts with the timestamp, `_`, the random part and `_`, and ends with the lower-cased extension |
| Upload.UniqueFilenameFixed | backend/src/middleware/upload.js:79-87 | corrected, the same prefix and the same lower-cased extension at the end |
| Upload.FarkliZamanFarkliAd | backend/src/middleware/upload.js:79-87 | names generated at two different timestamps differ, whatever the random parts and the original names, in both variants |
| Upload.ThumbnailName | backend/src/middleware/upload.js:229-231 | the thumbnail name ends in `_thumb.jpg` |
| Upload.ThumbnailDiffers | backend/src/middleware/upload.js:229-231 | a thumbnail never takes the photo's own name |
| Upload.ProcessUploadedFile | backend/src/middleware/upload.js:223-257 | the record keeps the original name, size and type, the photo lies under the evrak's folder, and a thumbnail path is set exactly when the thumbnail was made, under the same folder and never the photo's path |
| Upload.HandleUploadError | backend/src/middleware/upload.js:309-342 | multer errors and the two filter codes get 400; every other error goes on to the next handler |
| Upload.AfterDeleteFiles | backend/src/middleware/upload.js:264-284 | exactly the given photo and thumbnail are removed |
| Upload.AfterDeleteFolder | backend/src/middleware/upload.js:290-304 | exactly the files under the evrak's folder are removed |
| FotografService.GosterilenYol | frontend/src/services/evrakFotograflar.ts:82 | the photo's path is shown unless a thumbnail is asked for and the photo has a non-empty one |
| FotografService.YolUrl | frontend/src/services/evrakFotograflar.ts:85-94 | every URL starts with the base URL and `/uploads` and ends with the path |
| FotografService.YolBicimleri | frontend/src/services/evrakFotograflar.ts:85-94 | a path with a leading slash, without one, or without the upload folder gives the same URL |
| FotografService.ThumbnailYoksaAsil | frontend/src/services/evrakFotograflar.ts:80-95 | asking for the thumbnail of a photo that has none shows the photo |
| FotografService.ValidateFile | frontend/src/services/evrakFotograflar.ts:122-132 | no message exactly when type and size pass; the type message comes first |
| FotografService.Gecerliler | frontend/src/services/evrakFotograflar.ts:161-171 | the files sent are exactly the ones that pass |
| FotografService.Hatalar | frontend/src/services/evrakFotograflar.ts:161-171 | every failing file's message is reported |
| FotografService.Bolunme | frontend/src/services/evrakFotograflar.ts:161-171 | every picked file is either sent or reported, never both |
| FotografService.Eklenmis | frontend/src/services/evrakFotograflar.ts:207-215 | the client's failures are appended after the server's, each as a "Validation" entry, and counted as failed |
| FotografService.Ayir | frontend/src/services/evrakFotograflar.ts:161-171 | the loop sorts the picked files into exactly the valid ones and the messages of the rest |
| FotografService.UploadFotograflar | frontend/src/services/evrakFotograflar.ts:155-218 | nothing valid throws, with the joined messages when there are any; otherwise the valid files are sent and the failures appended |
| FotografService.SunucuyaYalnizGecerliler | frontend/src/services/evrakFotograflar.ts:155-218 | the failed count grows by exactly the number of files that failed on the client |
| FotografService.UploadTekFotograf | frontend/src/services/evrakFotograflar.ts:227-240 | a failing file gives its message; otherwise the first stored photo, or the first reported error |
| FotografService.IlkHata | frontend/src/services/evrakFotograflar.ts:235 | the first reported error, or a non-empty stock message |
| FotografService.TekDosya | frontend/src/services/evrakFotograflar.ts:227-240 | a single file is sent alone when it passes, and its message is the whole error otherwise |
| Settings.Sira | backend/src/models/settings.js:17-26 | the first position of a key among the built-in settings, or past the end when it is not one |
| Settings.Tanimi | backend/src/models/settings.js:44-46 | a built-in entry found for a key is that key's own |
| Settings.TanimiVar | backend/src/models/settings.js:17-26 | exactly the eight built-in keys have an entry |
| Settings.KorumaliAnahtarlar | backend/src/models/settings.js:18-20 | the keys the user may not change are exactly `app_version`, `db_created_at` and `setup_completed` |
| Settings.MirasTanimsiz | backend/src/models/settings.js:17-26 | no built-in setting is named like a member every object inherits (`toString`, `constructor`, `__proto__` and the rest) |
| Settings.YazmaYasakAnahtarlar | backend/src/models/settings.js:127 | `updateMultiple` refuses exactly the three system keys and the inherited names, whose `DEFAULT_SETTINGS[key]` is truthy with no `editable` |
| Settings.ToStringDuzenlenemez | backend/src/models/settings.js:121-144 | sending `toString` fails with the not-editable message, updates nothing and writes nothing |
| Settings.RakamOnEki | backend/src/models/settings.js:287 | the digits `parseInt` reads: the longest prefix of digits in the base |
| Settings.ParseInt | backend/src/models/settings.js:287 | `parseInt` gives NaN exactly when no digit follows the sign and the hex prefix |
| Settings.ParseIntOfNat | backend/src/models/settings.js:287 | a stored decimal number reads back as itself |
| Settings.Oku | backend/src/models/settings.js:37-50 | a stored value wins; otherwise the built-in default; otherwise null |
| Settings.Getir | backend/src/models/settings.js:37-50 | `get` as written: undefined exactly for an unstored inherited name, null exactly when nothing is stored or defaulted otherwise, and read as text it agrees with the stored-or-default value |
| Settings.AyarGetirDurumu | backend/src/routes/settings.js:244-262 | 404 exactly when `get` gives null; 403 exactly when the key is a system key or an inherited name and the caller is no admin; 200 otherwise |
| Settings.AyarGetirOrnekleri | backend/src/routes/settings.js:244-262 | an unknown key is 404, but `toString` is 403 for a user and 200 for an admin, with an undefined value |
| Settings.TumAyarlarAnahtar | backend/src/models/settings.js:78-114 | the listing holds exactly the keys it shows |
| Settings.GetAllAgreesWithGet | backend/src/models/settings.js:78-114 | every value the listing shows is the value `get` returns for that key |
| Settings.GetAllHidesSystemKeys | backend/src/models/settings.js:85-109 | without system keys only editable built-ins are listed, stored extra keys included only with them; with system keys every built-in and every stored key except an inherited name, which `!result[key]` skips |
| Settings.IntOfReadsBack | backend/src/models/settings.js:285-289 | a stored decimal number reads back as itself, and a missing value gives the default |
| Settings.NullIsNaN | backend/src/models/settings.js:285-289 | the text "null" is not a number, so it falls back to the default |
| Settings.FreshTableDefaults | backend/src/models/settings.js:17-26 | on an empty table retention is 30 days, the warning 7 days, automatic backup on and setup not completed |
| Settings.SonucBolunme | backend/src/models/settings.js:121-144 | every key sent is either updated or reported; success means no error, which means every key was writable and written |
| Settings.SonucGuncellenen | backend/src/models/settings.js:121-144 | a key is reported updated exactly when it was sent and could be written |
| Settings.YazilmisKorur | backend/src/models/settings.js:126-130 | a refused key (a system key or an inherited name), or one not sent, keeps its stored value or its absence |
| Settings.DurumKurallari | backend/src/models/settings.js:154-176 | setup counts as completed only with an admin; a fresh table is not set up and reports version 1.0.0; without users setup is never completed |
| Settings.KurulumTamamlar | backend/src/models/settings.js:197-218 | after setup with an admin, setup is completed, records who did it and leaves every other setting as it was |
| Settings.IkinciTurSonu | backend/src/models/settings.js:98-111 | the second pass over stored keys ends in the listing |
| Settings.SettingsStore.constructor | backend/src/models/settings.js:37-50 | the store starts from the given table |
| Settings.SettingsStore.Get | backend/src/models/settings.js:37-50 | the value as stored, defaulted or null, and undefined exactly for an unstored inherited name |
| Settings.SettingsStore.GetBoolean | backend/src/models/settings.js:274-277 | true exactly for the text "true" or "1" |
| Settings.SettingsStore.GetInt | backend/src/models/settings.js:285-289 | the leading integer of the value, or the default when there is none |
| Settings.SettingsStore.Set | backend/src/models/settings.js:58-71 | an upsert: the key takes the value when the write succeeds, and nothing changes when it fails |
| Settings.SettingsStore.VarsayilanGirdiler | backend/src/models/settings.js:89-101 | the first pass lists exactly the built-ins shown, each with its stored or default value |
| Settings.SettingsStore.GetAll | backend/src/models/settings.js:78-114 | the two passes compute exactly the listing |
| Settings.SettingsStore.UpdateMultiple | backend/src/models/settings.js:121-144 | the answer and the new table are the ones the key-by-key pass defines |
| Settings.SettingsStore.GetSetupStatus | backend/src/models/settings.js:154-176 | the setup status of the current settings and users |
| Settings.SettingsStore.PerformSetup | backend/src/models/settings.js:183-263 | refused when setup is done or the user name is taken, with nothing changed; otherwise one new admin and the setup keys written, and setup is then completed |
| Settings.AnahtarlarFarkli | backend/src/models/settings.js:17-26 | no two built-in settings share a key |
| Settings.SetupDefault | backend/src/models/settings.js:20 | a fresh table reads setup as not completed |
| Settings.RetentionDefault | backend/src/models/settings.js:22 | a fresh table keeps backups 30 days |
| Settings.AutoBackupDefault | backend/src/models/settings.js:23 | a fresh table has automatic backups on |
| Settings.WarningDaysDefault | backend/src/models/settings.js:25 | a fresh table warns 7 days before the due date |
| Backup.DesenListelenir | backend/src/models/backup.js:165 | every name the guard accepts is one the listing shows |
| Backup.NoktalariTire | backend/src/models/backup.js:40 | every colon and point becomes a dash, and nothing else changes |
| Backup.IlkiniDegistirYeri | backend/src/models/backup.js:41 | replacing with a one-character pattern changes only its first occurrence |
| Backup.DosyaAdiDeseneUyar | backend/src/models/backup.js:35-45 | a backup is named `ceksenet_YYYY-MM-DD_HH-MM-SS.db` from the ISO time, and the guard accepts that name |
| Backup.GuvenlikKopyasi | backend/src/models/backup.js:220 | the safety copy taken before a restore is listed, yet the guard refuses it, so no delete or cleanup removes it |
| Backup.Kb | backend/src/models/backup.js:75 | the size in kibibytes is the nearest whole number, halves rounded up |
| Backup.Adaylar | backend/src/models/backup.js:116-155 | the listing holds exactly the files starting `ceksenet_` and ending `.db`, each with its meta |
| Backup.Yerlestir | backend/src/models/backup.js:147 | inserting keeps every entry and adds one |
| Backup.SiralaDogru | backend/src/models/backup.js:147 | the listing is newest first and holds the same entries |
| Backup.ListeDogru | backend/src/models/backup.js:116-155 | `list` names each backup file once, newest first, and exactly the files the filter keeps |
| Backup.SiralaToplam | backend/src/models/backup.js:363-374 | sorting changes neither the number of entries nor their total size |
| Backup.CleanupKeepsNewest | backend/src/models/backup.js:315-357 | cleanup never removes one of the newest `keepCount` backups, nor a safety copy |
| Backup.BackupDir.constructor | backend/src/models/backup.js:21-24 | the folder holds what it held before the server started (it is only created when missing), with the live database alongside |
| Backup.BackupDir.Create | backend/src/models/backup.js:35-110 | a copy of the database is stored under the timestamped name with its meta, "Manuel yedek" when no description is given; the database is unchanged |
| Backup.BackupDir.GetByFilename | backend/src/models/backup.js:162-198 | an entry is found exactly when the guard accepts the name and the file exists |
| Backup.BackupDir.Restore | backend/src/models/backup.js:206-265 | a name the guard refuses or a missing file changes nothing; otherwise a safety copy of the live database is stored first and the backup becomes the database |
| Backup.BackupDir.Remove | backend/src/models/backup.js:272-308 | the file is removed exactly when the guard accepts the name and the file exists; the database is unchanged |
| Backup.BackupDir.Cleanup | backend/src/models/backup.js:315-357 | exactly the accepted backups past the newest `keepCount` are removed, and the count is their number |
| Backup.BackupDir.EskileriSil | backend/src/models/backup.js:328-335 | the loop removes exactly the accepted names past `keepCount` and counts each removal once |
| Backup.BackupDir.SilVeSay | backend/src/models/backup.js:331-334 | one turn removes the name when the guard accepts it and counts the removal once |
| Backup.BackupDir.GetStats | backend/src/models/backup.js:363-374 | the number of backups, their total size and that total in kibibytes |
| Backup.AdaylarTekil | backend/src/models/backup.js:116-155 | the listed backups have distinct names, all taken from the folder |
| Bankalar.AdaGoreEkle | backend/src/models/bankalar.js:25 | inserting by name keeps every row and adds one |
| Bankalar.AdaGoreEkleSirali | backend/src/models/bankalar.js:25 | inserting by name keeps the rows in name order |
| Bankalar.UyanlarSirali | backend/src/models/bankalar.js:145-154 | filtering keeps the name order |
| Bankalar.UyanlarTam | backend/src/models/bankalar.js:145-154 | filtering keeps exactly the rows that pass the test |
| Bankalar.IdlerBoyu | backend/src/models/bankalar.js:145-154 | rows with distinct ids have as many ids as rows |
| Bankalar.EslesenSayisi | backend/src/models/bankalar.js:145-154 | a list holding each matching active row once has one entry per matching bank |
| Bankalar.IlkSonrakiler | backend/src/models/bankalar.js:148-150 | in a name-ordered list every row past the first `limit` sorts after each row kept |
| Bankalar.UyanlarTekil | backend/src/models/bankalar.js:145-154 | filtering keeps the ids distinct |
| Bankalar.UntrimmedNameAddsTwin | backend/src/models/bankalar.js:56-78 | `create` looks a name up as given but stores it trimmed, so an untrimmed name beside its trimmed twin adds a second row of that name |
| Bankalar.YeniAdTekil | backend/src/models/bankalar.js:87-107 | renaming a row to a name no other row holds keeps names distinct |
| Bankalar.YeniSatirTekil | backend/src/models/bankalar.js:56-78 | a new row under a name no row holds keeps names distinct |
| Bankalar.BankaStore.GetAll | backend/src/models/bankalar.js:14-28 | exactly the active rows, or every row when inactive ones are asked for, each once, in name order |
| Bankalar.BankaStore.Search | backend/src/models/bankalar.js:145-154 | only active matching rows, each once, in name order; all the matches when there are at most `limit`, otherwise exactly `limit`, and every match left out sorts after every row returned |
| Bankalar.BankaStore.Create | backend/src/models/bankalar.js:56-78 | a known name returns its row, reactivated, and adds none; an unknown name is inserted trimmed and active; trimmed names stay distinct |
| Bankalar.BankaStore.BaskaSahip | backend/src/models/bankalar.js:94-97 | the name check fires only when another row holds the name, and always does when names are distinct |
| Bankalar.BankaStore.Update | backend/src/models/bankalar.js:87-107 | null for a missing id; an error, changing nothing, exactly when another row holds the name; otherwise only that row is renamed, trimmed |
| Bankalar.BankaStore.Remove | backend/src/models/bankalar.js:114-137 | a bank named by documents is only deactivated, with their count in the message; an unused bank is deleted; a missing one is reported |
| Cariler.Kayit | backend/src/models/cariler.js:130-150 | the row keeps the required fields as given and turns every empty optional field into null |
| Cariler.Bagliler | backend/src/models/cariler.js:207 | exactly the documents that name the cari |
| Cariler.IstatistikBolunur | backend/src/models/cariler.js:94-123 | when every document has one of the five statuses, the status counts add up to the document count and the status amounts to the total |
| Cariler.UnknownStatusOnlyInTotal | backend/src/models/cariler.js:102-113 | a document in another status is counted in the total only |
| Cariler.Sil | backend/src/models/cariler.js:199-223 | a missing id fails; a cari with documents is refused with their count; any other is removed |
| Cariler.SilBaglantilariKorur | backend/src/models/cariler.js:199-223 | deleting never leaves a document pointing at a missing cari |
| Cariler.LinkedDeleteKeepsLinks | frontend/src/pages/cariler/CariDetayPage.tsx:501 | a cari with documents is not deleted, contrary to the page's warning that its documents would lose their cari |
| Cariler.SilmeKodu | backend/src/routes/cariler.js:290-300 | 200 on success, 400 when the answer carries a document count, 404 otherwise |
| Cariler.RefusalIs400 | backend/src/routes/cariler.js:290-300 | a refusal for documents is answered with 400 and a missing cari with 404 |
| Cariler.SaglarEkle | backend/src/models/cariler.js:27-33 | one more term narrows the clause to the rows that also meet it |
| Cariler.AramaDeseni | backend/src/models/cariler.js:32 | for a search text without `%` or `_`, the `%text%` pattern on name or phone is a substring test on either |
| Cariler.WhereOlustur | backend/src/models/cariler.js:17-37 | the clause and its parameters are built filter by filter and keep exactly the rows matching the type and the search (the search as a literal substring, see "## Left out") |
| Cariler.ListeSatiriOf | backend/src/models/cariler.js:54 | each listed cari carries the number of its documents |
| Cariler.Sayfala | backend/src/models/cariler.js:46-48 | the page count covers every row with no empty last page, and is zero exactly when there are no rows |
| Cariler.CariStore.GetById | backend/src/models/cariler.js:82-87 | the row, or null exactly when the id is missing |
| Cariler.CariStore.GetWithStats | backend/src/models/cariler.js:94-123 | null for a missing cari; otherwise the row and the statistics of exactly its documents |
| Cariler.CariStore.GetEvraklar | backend/src/models/cariler.js:233-268 | null for a missing cari; otherwise at most `limit` of its own documents and the count of all of them |
| Cariler.CariStore.GetAllTotal | backend/src/models/cariler.js:38-45 | the counted cari are exactly the ones matching the filters |
| Cariler.CariStore.Create | backend/src/models/cariler.js:130-150 | one new row under a fresh id; documents untouched |
| Cariler.CariStore.Update | backend/src/models/cariler.js:158-192 | null for a missing id; otherwise every field is overwritten, empty optional fields becoming null |
| Cariler.CariStore.Remove | backend/src/models/cariler.js:199-223 | the table becomes what `Sil` says and documents are never touched |
| Users.KullaniciAdiHatalariBos | backend/src/routes/users.js:86-89 | a username draws no message exactly when it has 3 to 50 letters, digits or underscores |
| Users.KayitHatalari | backend/src/routes/users.js:85-98 | no message exactly when the username is valid, the password has at least 6 characters, the name 1 to 100 and the role is admin or normal |
| Users.KirpOpt | backend/src/routes/users.js:165-176 | trimming keeps whether a field was sent |
| Users.UpdateHatalari | backend/src/routes/users.js:163-178 | no message exactly when each field sent passes its rule |
| Users.Uygula | backend/src/routes/users.js:224-238 | an update writes the fields sent and not empty, and never the password |
| Users.Ekle | backend/src/routes/users.js:108-136 | a row under an unused username keeps usernames unique |
| Users.Degistir | backend/src/routes/users.js:209-222 | renaming to a username no other row has keeps usernames unique |
| Users.GecerliAdKirpilmaz | backend/src/routes/users.js:86-89 | a username the rules accept is stored as sent |
| Users.UserStore.Create | backend/src/routes/users.js:84-155 | rule failures come first, then a taken username, both changing nothing; otherwise 201 and one new row with the trimmed name and the hash |
| Users.UserStore.Update | backend/src/routes/users.js:162-278 | rule failures, a missing user and an admin demoting themself are refused, changing nothing; success writes only the sent fields, and the signed-in admin stays admin |
| Users.UserStore.Insert | backend/src/routes/users.js:126-129 | the insert fails exactly when the username is taken, changing nothing; otherwise one row under a fresh id |
| Users.UserStore.ResetPassword | backend/src/routes/users.js:283-335 | a short password is refused, then a missing user; success changes only that user's hash |
| Users.UserStore.Delete | backend/src/routes/users.js:342-395 | deleting oneself is refused before the lookup; a missing user is reported; success removes only that row and never the signed-in user |
| Migrate.SiralaSirali | backend/src/migrate.js:38 | the default sort leaves the file names in ascending order |
| Migrate.SiralaPerm | backend/src/migrate.js:38 | sorting neither drops nor adds a file name |
| Migrate.SqlDosyalari | backend/src/migrate.js:36-37 | a name is kept exactly when the listing holds it and it ends in `.sql` |
| Migrate.PlanDogru | backend/src/migrate.js:36-38 | the planned files are exactly the `.sql` names of the listing, each as often as listed, in ascending order |
| Migrate.Surum | backend/src/migrate.js:50 | a name without `.sql` is its own version; otherwise exactly one `.sql` is removed, four characters shorter |
| Migrate.SurumUzantisiz | backend/src/migrate.js:50 | a name whose only `.sql` is its extension has the name without the extension as its version |
| Migrate.VersionsCanCollide | backend/src/migrate.js:50 | since the first `.sql` is removed, `a.sqlb.sql` and `ab.sql.sql` both get the version `ab.sql` |
| Migrate.Aciklama | backend/src/migrate.js:61-62 | a found description has no leading or trailing blank |
| Migrate.NoDashesNoDescription | backend/src/migrate.js:61 | a text without `--` has no description |
| Migrate.MatchAt | backend/src/migrate.js:61 | `--`, blanks, the keyword in any case and blanks followed by a character capture the rest of that line |
| Migrate.HeaderDescription | backend/src/migrate.js:61-62 | a first line `-- Description: d` gives `d` trimmed, whatever the keyword's case |
| Migrate.TrailingBlankGivesEmpty | backend/src/migrate.js:61-62 | a keyword followed only by a blank at the end of the file gives an empty description, not null |
| Migrate.Calistir | backend/src/migrate.js:49-86 | the loop only appends to the table and to the executed SQL, one row per executed file, and the count it returns is the number of rows added |
| Migrate.AppliedCountIsNew | backend/src/migrate.js:49-79 | a finished run counts exactly the planned files whose version was not recorded before the run |
| Migrate.FinishedRunRecordsAll | backend/src/migrate.js:49-86 | after a finished run every planned file's version is recorded and no earlier row is lost |
| Migrate.NothingNewAppliesNone | backend/src/migrate.js:52-55 | when every planned version is already recorded the run applies nothing and changes nothing |
| Migrate.SecondRunAppliesNone | backend/src/migrate.js:11-95 | running the migrations again after a finished run applies 0 files and changes nothing |
| Migrate.FailureKeepsEarlier | backend/src/migrate.js:66-84 | a failed run keeps exactly what the files before the failing one applied, names the failing version, and later files leave no trace |
| Migrate.FailureFirst | backend/src/migrate.js:66-84 | a failing first file reports its version and leaves the database as it was |
| Migrate.Runner.constructor | backend/src/migrate.js:16-23 | a fresh database has an empty migrations table |
| Migrate.Runner.RunMigrations | backend/src/migrate.js:11-95 | the run's result and the new table and executed SQL are those of the run specification |
| Tcmb.CacheServedIff | backend/src/utils/tcmb.js:111-127 | the cache is answered, unchanged and without a fetch, exactly when it holds data stamped less than an hour ago and no refresh is forced |
| Tcmb.FetchReplacesCache | backend/src/utils/tcmb.js:129-151 | otherwise a successful fetch replaces the cache, stamped now, and is answered uncached |
| Tcmb.FailedFetchKeepsCache | backend/src/utils/tcmb.js:153-188 | a failed fetch never changes the cache; it answers old data as stale, or with no data the TRY-only fallback as unavailable |
| Tcmb.FreshFetchServedForAnHour | backend/src/utils/tcmb.js:111-151 | within the hour after a fetch, an unforced call is answered from the cache with the fetched rates |
| Tcmb.Dakika | backend/src/utils/tcmb.js:229 | the whole number of minutes nearest to the age, halves up |
| Tcmb.Durum | backend/src/utils/tcmb.js:217-233 | the status is empty exactly without a timestamp, valid exactly within the hour, and a stale cache expires in 0 minutes |
| Tcmb.Kur | backend/src/utils/tcmb.js:200 | a rate is given exactly when it is present and non-zero |
| Tcmb.FallbackOnlyTry | backend/src/utils/tcmb.js:172-187 | without cache and bulletin only TRY has a rate |
| Tcmb.KurCache.constructor | backend/src/utils/tcmb.js:19-23 | the cache starts empty |
| Tcmb.KurCache.GetKurlar | backend/src/utils/tcmb.js:111-189 | the answer and the new cache are those of the cache specification |
| Tcmb.KurCache.GetKur | backend/src/utils/tcmb.js:196-201 | TRY is 1 without touching the cache; any other code is the rate of an unforced fetch, or null |
| Tcmb.KurCache.ClearCache | backend/src/utils/tcmb.js:206-212 | the cache is emptied and its status is empty |
| Tcmb.KurCache.GetCacheStatus | backend/src/utils/tcmb.js:217-233 | the status of the current cache, and an empty status means the cache cannot be served |
| System.Ipv4 | backend/src/routes/system.js:40-46 | the filter keeps at most the addresses it is given |
| System.Ipv4Members | backend/src/routes/system.js:40-46 | an entry is kept exactly when some address of the interface is IPv4 and not internal, with its address, netmask and mac |
| System.IlkDesen | backend/src/routes/system.js:53 | the index found is that of the first pattern the lower-cased name contains, and none means no pattern is contained |
| System.OncelikOf | backend/src/routes/system.js:52-65 | a finite priority below 6 names a contained pattern, and the priority is infinite exactly when no pattern matches and the name holds a virtual pattern |
| System.EthernetFirst | backend/src/routes/system.js:36-53 | a name containing `ethernet` in any case gets priority 0, even when it also holds a virtual pattern |
| System.VEthernetWslIsPriorityZero | backend/src/routes/system.js:53-58 | `vEthernet (WSL)` gets priority 0, since the virtual check is made only when no pattern matched |
| System.Puanlar | backend/src/routes/system.js:39-65 | each interface is scored by whether it counts and by its priority, in order |
| System.SecimP | backend/src/routes/system.js:67-71 | the chosen position counts and carries the best priority, and nothing is chosen exactly when the best is infinite |
| System.SecimPEnIyi | backend/src/routes/system.js:67-71 | the choice is the first interface of least priority among those that count, never an infinite one |
| System.Secim | backend/src/routes/system.js:39-73 | the chosen interface has a non-internal IPv4 address |
| System.SecimEnIyi | backend/src/routes/system.js:37-71 | the chosen interface has the smallest finite priority, ties go to the first, and nothing is chosen exactly when every interface that counts is virtual |
| System.ArayuzlerYalniz | backend/src/routes/system.js:48-49 | only interfaces with a non-internal IPv4 address are listed |
| System.ArayuzlerTam | backend/src/routes/system.js:48-49 | every such interface is listed under its name with its filtered addresses |
| System.LanUrl | backend/src/routes/system.js:79-82 | the LAN address exists exactly for a truthy primary address and is `http://<ip>:<port>` |
| System.Adim | backend/src/routes/system.js:39-72 | one pass lists a counting interface and makes it primary exactly when its priority beats the best so far |
| System.Tara | backend/src/routes/system.js:32-73 | the loop builds the listed interfaces and the first address of the chosen interface, or null |
| System.Ip | backend/src/routes/system.js:26-90 | the answer holds the listed interfaces, the chosen primary address, the port defaulting to 7474 and the local and LAN URLs |
| Whatsapp.Temizle | frontend/src/utils/whatsapp.ts:29 | no blank, `+`, `-`, `(` or `)` remains and nothing is added |
| Whatsapp.TemizleUyeler | frontend/src/utils/whatsapp.ts:29 | a character remains exactly when the input holds it and it is not a separator |
| Whatsapp.TemizleTemiz | frontend/src/utils/whatsapp.ts:29 | a number without separators is left as it is |
| Whatsapp.Normalize | frontend/src/utils/whatsapp.ts:25-42 | the normalised number holds no separator, and the empty number stays empty |
| Whatsapp.NormalizeKurallari | frontend/src/utils/whatsapp.ts:32-39 | one leading `0` becomes `90`; `90` is put in front only of ten characters not starting with it; anything else is kept |
| Whatsapp.NormalizeIdempotent | frontend/src/utils/whatsapp.ts:25-42 | normalising twice is normalising once |
| Whatsapp.OrnekBosluklu | frontend/src/utils/whatsapp.ts:23 | `+90 ddd ddd dd dd` loses its separators and keeps the twelve digits |
| Whatsapp.OrnekRakamli | frontend/src/utils/whatsapp.ts:18-22 | the documented digit-only shapes (eleven from `0`, ten, twelve from `90`, with or without `+`) all reach `90` and ten digits |
| Whatsapp.DoksanlaBaslayan | frontend/src/utils/whatsapp.ts:36-39 | a number whose cleaned form starts with `90` is only cleaned |
| Whatsapp.RakamliGecerlilik | frontend/src/utils/whatsapp.ts:49-57 | a digit-only number is valid exactly when it has twelve digits from `90`, eleven from `0`, or ten starting with neither |
| Whatsapp.GecerliNormal | frontend/src/utils/whatsapp.ts:49-57 | a valid number stays valid and unchanged when normalised again |
| Whatsapp.UrlParcalari | frontend/src/utils/whatsapp.ts:117-122 | the link is `https://wa.me/`, the normalised number, `?text=` and the encoded message, and the number adds no `?` |
| Whatsapp.Degerler | frontend/src/utils/whatsapp.ts:92-102 | one text per placeholder: the cheque number, kind label, drawer and account name or `-`; the currency or `TRY`; the given amount text; `-` for a missing rate, due date or issue date and for an unknown status; the bank's display name when truthy, else its truthy name, else `-` |
| Whatsapp.ReplaceAll | frontend/src/utils/whatsapp.ts:92-102 | a global replace leaves a text without the pattern as it is |
| Whatsapp.ReplaceAllBasta | frontend/src/utils/whatsapp.ts:92-102 | with a replacement free of `$` patterns, every occurrence is replaced, not only the first: one at the front is replaced and the rest searched again |
| Whatsapp.ReplaceAllTam | frontend/src/utils/whatsapp.ts:92-102 | a text that is exactly the pattern becomes the replacement with its `$` patterns expanded, and a plain replacement as it is |
| Whatsapp.DolarKaliplari | frontend/src/utils/whatsapp.ts:92-102 | `$&` inserts the match, `` $` `` and `$'` the text before and after it, `$$` one dollar, and `$1` stays literal since the pattern has no group |
| Whatsapp.GenisletDuz | frontend/src/utils/whatsapp.ts:92-102 | a replacement without `$$`, `$&`, `` $` `` or `$'` is inserted as it is |
| Whatsapp.DegistirYoksa | frontend/src/utils/whatsapp.ts:92-102 | a rest of the text without the pattern is copied unchanged |
| Whatsapp.SuslusuzDegismez | frontend/src/utils/whatsapp.ts:92-102 | a template without `{` passes every replacement unchanged |
| Whatsapp.DoldurKorur | frontend/src/utils/whatsapp.ts:86-105 | without a template or a cheque the template or the empty text is returned, and a template without placeholders is returned as it is |
| Whatsapp.FillMessageTemplate | frontend/src/utils/whatsapp.ts:86-105 | as written: without a template or a cheque the template or the empty text; a template without `{` unchanged |
| Whatsapp.FillMessageTemplateFixed | frontend/src/utils/whatsapp.ts:86-105 | corrected: the same two guarantees with `{tutar}` in the cheque's own currency |
| Whatsapp.IkinciYertutucu | frontend/src/utils/whatsapp.ts:92-102 | a template that is only the second placeholder gives that placeholder's value when the first placeholder cannot occur in it and no value brings a `{` or a `$` pattern in |
| Whatsapp.TutarYertutucu | frontend/src/utils/whatsapp.ts:93 | a template that is only `{tutar}` gives the amount's text, when that text holds no `{` and no `$` pattern |
| Whatsapp.TutarAsWrittenIgnoresCurrency | frontend/src/utils/whatsapp.ts:93 | as written, `{tutar}` is the lira sign and the amount, which for a dollar cheque is not the dollar text |
| Whatsapp.DolarIsareti | frontend/src/utils/currency.ts:55-65 | a dollar amount begins with `$`, never with the lira text |
| Whatsapp.TutarFixedUsesCurrency | frontend/src/utils/whatsapp.ts:93 | with the currency passed through, `{tutar}` carries the symbol of the cheque's currency |
| Currency.Bilgi | frontend/src/utils/currency.ts:14-20 | each entry carries its own code and a non-empty symbol |
| Currency.Ara | frontend/src/utils/currency.ts:14-20 | a lookup finds the entry whose code is the text, and nothing when no entry has that code |
| Currency.GecerliAnahtarlar | frontend/src/utils/currency.ts:23 | the valid codes are exactly the table's keys, each once |
| Currency.Sembol | frontend/src/utils/currency.ts:36-38 | the table's symbol, or `₺` for an unknown code |
| Currency.Isim | frontend/src/utils/currency.ts:45-47 | the table's name, or `Türk Lirası` for an unknown code |
| Currency.SembolAyirir | frontend/src/utils/currency.ts:14-47 | an unknown code is shown as the lira, and two valid codes with the same symbol or the same name are equal |
| Currency.SembollerFarkli | frontend/src/utils/currency.ts:14-20 | different currencies have different symbols and names |
| Currency.TryLiraGosterir | frontend/src/utils/currency.ts:121-132 | whatever counts as TRY is shown as the lira, and the only valid code counting as TRY is `TRY` |
| Currency.FormatCurrency | frontend/src/utils/currency.ts:55-65 | `-` exactly without an amount, otherwise the symbol (TRY's for an unknown code) and the formatted number |
| Currency.LiraMetni | frontend/src/utils/currency.ts:91 | the lira text is the lira sign before the formatted number |
| Currency.FormatWithTry | frontend/src/utils/currency.ts:74-96 | `-` without an amount; the currency text alone for TRY or without a positive rate; otherwise followed by ` ≈ ` and the lira equivalent |
| Currency.FormatWithTryUzatir | frontend/src/utils/currency.ts:74-96 | the result always begins with the currency text and is `-` exactly without an amount |
| Currency.FormatExchangeRate | frontend/src/utils/currency.ts:104-114 | `-` exactly for a falsy rate or TRY, otherwise `1 <symbol> = ₺<rate>` |

## Left out

- **I/O.** Reading and writing files, multer's storage, sharp's resizing, ExcelJS's workbook
  reading, `fetch` and xml2js, the SQLite engine, bcrypt and jsonwebtoken are all out. Each
  is replaced by its outcome, given as a parameter: success or failure, the bytes read, the
  rows a query returns.
- **SQL queries.** `LIKE`, `ORDER BY` and the aggregates of the list endpoints are kept only
  as the terms the code adds to a `WHERE` clause. Page rows are a slice of an already
  ordered sequence.
- **Floating point.** The annuity formula (`taksitHesapla`, `hesaplaTaksit`) and
  `Math.round(x * 100) / 100` are out, because amounts are integer kuruş. `formatFileSize` and
  the `toLocaleString` and `Intl.NumberFormat` texts are out or are parameters. JavaScript
  numbers in the rate cache and in currency texts are `real`.
- **JavaScript dates and time zones.** Time zones and `toISOString` are out, and the times of
  the answers are plain milliseconds. The date that `parseDate`'s `toISOString` gives is
  taken in local time. Under UTC+3 the source shifts it back one day, which is not modelled.
- **Scheduling and concurrency.** node-cron, the hourly `setInterval` of the import sweep,
  and concurrent requests are out. Each operation runs alone.
- **Logging.** Logging and console output are not modelled.
- **Case mapping.** `toLowerCase` and `toUpperCase` act on ASCII letters only. Non-ASCII
  letters matter only in the texts of values that are already refused.
- **Object key order.** JavaScript object key order is not modelled. `getAll` of the settings
  returns a map. The interfaces of `os.networkInterfaces()` are taken in the order given.
- **Regular expressions.** The `i` flag of the migration description pattern is modelled
  for ASCII letters only.
- **Host name.** The `hostname` field of `GET /api/system/ip` and the unrelated
  `GET /api/system/health` are not modelled.
- **Users: passwords and uniqueness.** bcrypt is out: the hash a handler stores is a
  parameter of that handler. The `UNIQUE` constraint on `username` is not a separate failure, because the
  route's own check runs first.
- **Settings: setup failures.** `performSetup` models only the failure of the admin insert
  on a taken username. The settings writes inside the transaction are taken as succeeding.
- **Settings: bulk update values.** `updateMultiple` stores each value as text. `String(value)`
  of non-text JSON values is not modelled.
- **Backup: what is not modelled.**
  - the file copy, `VACUUM`, the WAL files and file metadata, beyond the name and size of
    each file;
  - `total_size_mb` (a rounded floating-point division); the byte and kibibyte sizes are
    modelled;
  - the tie order of backups with the same `created_at`.
- **Bankalar: SQL details.** The `LIKE` pattern of `search` is a parameter: a test on the
  name. `ORDER BY ad` is the order of the name texts. When a name is stored twice, `getByAd`
  is modelled as a test that some row has the name, not as returning a chosen row.
- **Cariler: SQL details.** `ORDER BY` and the `CURRENT_TIMESTAMP` of `updated_at` are out.
  `LIKE` is case-insensitive on ASCII letters only.
- Cariler.AramaDeseni: the search text goes into the `LIKE` pattern unescaped, so a `%` or
  `_` the user types is a wildcard in the program (`a_b` matches `axb`, `%` matches every
  non-null name or phone); the model reads them as literal characters.
- Cariler.WhereOlustur: keeps the literal substring matches; for a search text with `%` or
  `_` the program also keeps the wildcard matches (see the line above).
- KrediService.HesaplaIlerleme: the model rounds the exact ratio and sends an exact tie up.
  The program rounds `(o / t) * 100` in doubles, where a tie whose quotient is not exactly
  representable may land just below the half and round down (23 of 40 gives 57, not 58).
  The bounds and monotonicity lemmas hold either way.
- **Migrate: storage details.** The file order of `sort()` compares UTF-16 code units; the
  model compares characters, which is the same order for ASCII names. The `applied_at`
  column is out. A failing SQL statement is given as the set of files whose SQL throws.
- **Tcmb: status details.** The cache's own `error` field is always null, so it is left out.
  The ISO texts of the answers are the millisecond numbers they are made from.
- **WhatsApp: outside calls.** `encodeURIComponent`, `formatDate`, `toLocaleString` and the
  label tables are parameters. `openWhatsApp` with its `window.open` is out.
- **Currency: option list.** `PARA_BIRIMI_OPTIONS`, a list for a drop-down, is not
  modelled.
- **React pages.** The React pages and components are out, apart from the one warning text
  that `Cariler.LinkedDeleteKeepsLinks` refers to.
- **Helpers with no row.** Helper lemmas that only serve other proofs have no row of their
  own: one-step lemmas, slices, examples.
- KrediService.IlerlemeFullOnlyWhenPaid: requires fewer than 200 installments. From 200 on,
  `Math.round` shows 100 before the last installment is paid, for example 199 of 200. The
  lemma `KrediService.IlerlemeRoundsUpToFull` proves this, and loans may run to 360
  installments.
- **Clock and randomness.** `Date.now()` and `crypto.randomBytes` in the stored names of
  photos, imports and backups are parameters.
- **Date parsers.** JavaScript's own `Date` parser and `excelSerialToDate` are parameters of
  the import's `parseDate`. The date shapes the code checks itself are modelled.
- ExcelParser.ParseDate: the environment's date parser is a parameter, so for a cell of
  blanks, which trims to the empty text, the model does not fix the answer; in the source
  `new Date('')` is an invalid date and the cell gives null.
- DarkCleaner: the file is taken as the text Python's `open(..., 'r')` hands over, after its
  universal-newline translation of `\r\n` and `\r` to `\n`; the translation itself and the
  write back in text mode are not modelled.
- Currency.FormatCurrency: a code named like an inherited member (`toString`, `constructor`)
  finds a function in `CURRENCIES[code]`, so the source gives a text starting `undefined`,
  while the model treats it as an unknown code with the lira sign. Stored codes are checked
  against the known ones first.
- Krediler.TaksitListesiOlustur: requires a start date whose month is 01-12 and day 01-31,
  because for any other text `new Date` is invalid and `toISOString` throws. Other ISO 8601
  shapes that `isISO8601` accepts (a year alone, week dates, a time part) are not modelled.
- **Replacement patterns.** `String.prototype.replace` is modelled with `$$`, `$&`, `` $` ``
  and `$'`; `$1` and `$<` are kept literally because the placeholder patterns have no
  capture groups.

## Findings

| source | as written | input that shows it | evidently intended | confidence | as-written member | corrected member |
|---|---|---|---|---|---|---|
| backend/src/middleware/upload.js:79-87 | `generateUniqueFilename` cuts the base name with the lower-cased extension, but `path.basename` compares case-sensitively. So an upper-case extension stays in the stem. | `Photo.JPG` is stored as `<ts>_<id>_Photo.JPG.jpg` | the stem without its extension, whatever its case: `<ts>_<id>_Photo.jpg` | not executed | Upload.UpperCaseExtensionKept | Upload.FixedIgnoresExtensionCase |
| backend/src/utils/excelParser.js:480-490 | every cell but the two dates goes through `cleanCellValue`. So a numeric amount or rate reaches `parseAmount` as the text `String(n)`, whose `.` is then removed as a thousands separator. | a rate cell holding the number 35.5 is read as 355 | a number cell is read as the number it is, through `parseAmount`'s number branch: 35.5 | not executed | ExcelParser.AmountCellAsWrittenDropsPoint | ExcelParser.AmountOfCellKeepsNumber |
| frontend/src/utils/whatsapp.ts:93 | `{tutar}` is filled by the `formatCurrency` of `services/dashboard.ts`. It takes no currency and always formats lira; the second argument is ignored. | a cheque of 100 USD is announced as `₺100,00` | the amount in the cheque's own currency: `$100,00` | not executed | Whatsapp.TutarAsWrittenIgnoresCurrency | Whatsapp.TutarFixedUsesCurrency |
