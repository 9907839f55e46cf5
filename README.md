# American Airlines flight scraper: the deterministic rules

This project models the rules inside a small Selenium scraper for American
Airlines search results, over plain data instead of a browser:

- **Fare normalisation** (`FlightsData.get_price`, `FlightsData.process_prices`).
  A variable-length list of price texts becomes a fixed triple: basic economy,
  main cabin, first class. Missing tiers hold the sentinel `"N/A"`. Whitespace
  is stripped as Python's `str.strip()` does.
- **Record assembly** (`FlightsData.page_scrape`). Result cards become a
  dictionary keyed by 1-based sequential ids. Each entry has five fields and
  keeps only the main-cabin price. A card with a missing sub-element aborts
  the scrape.
- **Run and export** (`FlightsData.run`, `DataExport`). `run` fills four form
  fields in a fixed order and names the CSV `"{depart}to{arrive}.csv"`.
  `export_to_csv` returns the file name, or the string `'None'`. The text
  export writes a header line and then one line per flight.
- **The prototype scraper** (flight_scrape.py). `page_scrape` checks that
  three element lists have the same length. It then zips them into a
  dictionary keyed by flight-number text, where a later duplicate overwrites
  an earlier one. `export_file` writes one line per flight.

A fare node is its raw text. A result card is the text of each sub-element it
is searched for, or `None` where Selenium's `find_element` would raise
`NoSuchElementException`. Opening or writing a file is a boolean outcome given
as a parameter. A file's content is a string, built by appending each written
line followed by `"\n"`, and read back with `SplitLines`.

Modules:

- `Wrappers`: `Option` and `Result`.
- `PyStr`: Python's `str.isspace` character set and `str.strip`.
- `TextLines`: joining lines with `"\n"` and splitting them back.
- `WebScraper`: web_scraper.py.
- `FlightScrape`: flight_scrape.py.

`WebScraper.FlightsData` and `WebScraper.DataExport` are classes, as in the
source. Their fields are set once by the constructor and never reassigned.
`page_scrape`, `export_to_txt` and `export_file` are methods with loops, each
proved equal to a specification function. The properties the source promises
are proved about those functions as lemmas.

Where the code and the design description disagree, the model follows the
code:

- A card with a missing sub-element is not skipped. `extract_flight_details`
  raises, and `page_scrape` does not catch the error, so the whole scrape
  fails (`FlightsData.PageScrape` returns `Failure`).
- With four or more price nodes, `process_prices` gives
  `("N/A", node0, node1)`, not a main-cabin-only result.
- `driver.quit()` runs only when `run` succeeds (web_scraper.py:319).
  Teardown is not guaranteed on other exit paths, and the model does not
  claim it is.

## Model

`GetPrice`, `ProcessPrices`, `Strip`, `RecordOf` and `Collected` compute their
results and carry no contract of their own. The rows `GetPriceSpec`,
`ProcessPricesSpec`, `StripSpec`, `AssembleShape` (for `RecordOf`) and the
`Collected*` lemmas state what each of them promises.

| member | source | states |
|---|---|---|
| PyStr.StripSpec | web_scraper.py:156 | `strip()` cuts the maximal whitespace run from each end: everything cut is whitespace in Python's `isspace` sense, and the result neither starts nor ends with whitespace |
| PyStr.StripClean | web_scraper.py:156 | A string with no whitespace at either end is returned unchanged |
| PyStr.StripIdempotent | web_scraper.py:156 | Stripping twice is the same as stripping once |
| PyStr.StripEmptyIff | web_scraper.py:156 | The stripped text is empty exactly when the input is all whitespace (both directions) |
| PyStr.StripUnique | web_scraper.py:156 | If s[i..j] starts and ends with non-whitespace and only whitespace lies outside it, then that slice is the strip of s; an all-whitespace s strips to the empty string |
| TextLines.SplitLines | web_scraper.py:381-389 | Reading a file back line by line gives lines that contain no line break |
| TextLines.JoinLinesSnoc | web_scraper.py:386-389 | Writing one more line followed by "\n" appends exactly that line to the file's line list |
| TextLines.SplitJoin | web_scraper.py:381-389 | Writing newline-free lines each followed by "\n" and reading the file back gives exactly those lines |
| WebScraper.GetPriceSpec | web_scraper.py:142-158 | In range (including Python negative indexing) the price is the stripped text of that node; out of range it is "N/A", with no failure; the result never has edge whitespace |
| WebScraper.ProcessPricesSpec | web_scraper.py:224-244 | Three nodes give (strip t0, strip t1, strip t2). Any other count gives basic economy "N/A": 0 nodes give all "N/A", 1 node gives ("N/A", t0, "N/A"), 2 or at least 4 nodes give ("N/A", t0, t1). No tier has edge whitespace |
| WebScraper.ProcessPricesIgnoresTail | web_scraper.py:239-242 | With four or more nodes, only the first two matter: the result equals that of the first two alone |
| WebScraper.ExtractFlightDetails | web_scraper.py:193-222 | Extraction succeeds exactly when every sub-element is present. It then copies the flight-number list, the departure time, arrival time, duration and price texts from the card, each into its own field |
| WebScraper.RecordKeepsMainCabinOnly | web_scraper.py:271-279 | The stored price is node 1 of exactly three nodes, otherwise node 0, otherwise "N/A". Cards whose price lists give the same main-cabin price give identical records |
| WebScraper.NumberedShape | web_scraper.py:256-280 | Numbering items from 1 in order gives exactly the ids 1..n, n entries, and item k under id k + 1 |
| WebScraper.AssembleShape | web_scraper.py:254-282 | For n cards the ids are exactly 1..n, there are n entries, and entry k + 1 is built from card k: no card is skipped or reordered |
| WebScraper.FlightsData.constructor | web_scraper.py:47-67 | Stores the query. The return date defaults to None, the trip type to "round trip" and the airline to "AmericanAirline" |
| WebScraper.FlightsData.PageScrape | web_scraper.py:246-282 | Succeeds exactly when every card is complete, and then returns the id-to-record dictionary of AssembleShape. Otherwise it fails at the first incomplete card, all earlier cards being complete |
| WebScraper.FlightsData.Run | web_scraper.py:284-321 | Fills origin, destination, leaving-on and returning-from in that order with the query's values. Succeeds exactly when the scrape does, returning "{depart}to{arrive}.csv" whatever the CSV write outcome |
| WebScraper.CsvName | web_scraper.py:314 | The name is the departure code, then "to", then the arrival code, then ".csv" |
| WebScraper.CsvNameInjective | web_scraper.py:314 | For departure codes of equal length, the file name determines both airports |
| WebScraper.DataExport.constructor | web_scraper.py:331-341 | Stores the file name and the flights dictionary |
| WebScraper.DataExport.ExportToCsv | web_scraper.py:343-363 | Returns the file name unchanged when the write succeeds, and the string "None" when it raises OSError |
| WebScraper.TxtLine | web_scraper.py:386-388 | A flight's line ends with its main-cabin price followed by the trailing space |
| WebScraper.TxtLineIgnoresExtraKeys | web_scraper.py:385-388 | A flight's line depends only on departure_time, arrival_time and main_cabin_price; any other key is ignored |
| WebScraper.TxtExport | web_scraper.py:365-395 | A file exists exactly when the bundle is well-formed and the file opens. The export completes exactly when, in addition, every flight has the three keys. The id-keyed dictionary that `run` builds raises KeyError('depart') and leaves no file. A failed open is swallowed (WriteErrorLogged, no file). A missing flight key propagates as KeyError naming the first key missing from the first such flight, and the file keeps the header and the lines of the flights before it |
| WebScraper.TxtExportLines | web_scraper.py:379-389 | Read back line by line, a completed export is the header "This is flights info from {depart} ({departure_date}) to {arrive}({return_date}):" and then one line per flight in iteration order |
| WebScraper.DataExport.ExportToTxt | web_scraper.py:365-395 | The loop that writes the header and then flight lines leaves exactly the file and outcome of TxtExport: lines written before a KeyError stay, and open errors are swallowed |
| FlightScrape.Insert | flight_scrape.py:88-91 | Assigning a key sets its value and leaves the other keys alone. The dictionary grows by one exactly when the key is new |
| FlightScrape.InsertValid | flight_scrape.py:88-91 | Assignment keeps every key listed once and exactly the keys present. An existing key keeps its position |
| FlightScrape.CollectedOutcome | flight_scrape.py:83-91 | The zip succeeds exactly when every position has both times. Otherwise it fails at the first position missing one |
| FlightScrape.CollectedValid | flight_scrape.py:83-91 | The scraped dictionary lists each key once, and exactly the keys present |
| FlightScrape.CollectedFailsAt | flight_scrape.py:85-86 | A time lookup that raises at position i ends the scrape with that error, whatever follows |
| FlightScrape.PageScrape | flight_scrape.py:57-92 | Lists of different lengths give an empty dictionary. Otherwise the loop returns exactly the zipped result. The duration and price lists have no effect |
| FlightScrape.CollectedKeys | flight_scrape.py:83-91 | The dictionary's keys are exactly the flight-number texts |
| FlightScrape.CollectedLaterWins | flight_scrape.py:88-91 | Under a repeated flight-number text, the value is the departure and arrival times found at the last position holding it |
| FlightScrape.CollectedSize | flight_scrape.py:88 | The dictionary has at most as many entries as the common length, and exactly as many if and only if the flight-number texts are distinct |
| FlightScrape.ValidSize | flight_scrape.py:88-91 | A well-formed dictionary holds exactly `Len` entries, one per listed key, so `CollectedSize` is about the dictionary's own size |
| FlightScrape.FileExport | flight_scrape.py:94-101 | A file exists exactly when it opens; a failed `open` propagates (OpenErrorRaised, no file). Writing completes exactly when every element is a dictionary with both keys. Otherwise the first element that cannot be formatted raises: TypeError for a string, KeyError naming its first missing key for a dictionary. The file holds the header and then the lines of the elements before that one |
| FlightScrape.ExportFile | flight_scrape.py:94-101 | The loop leaves exactly the file and outcome of FileExport: the header and "\n", then a "Departure Time: {d} \| Arrival Time: {a}" line and "\n" per element in list order, stopping at the first element that cannot be formatted |
| FlightScrape.ScriptExportRaises | flight_scrape.py:98-100 | Handing the scraped dictionary itself to the export writes only the header and raises TypeError whenever at least one flight was scraped |
| FlightScrape.FlightItems | flight_scrape.py:88-91 | The dictionary's values in insertion order, one per key, each with both keys the export reads |
| FlightScrape.ExportFlightItemsLines | flight_scrape.py:94-101 | Exporting the dictionary's values completes. Read back, the file is the header and then each flight's line in insertion order |
| FlightScrape.ExportScraped | flight_scrape.py:94-101 | Exporting the dictionary's values completes whenever the file opens |

## Left out

- Browser work is not part of this model: driver setup, navigation, `WebDriverWait` waits, clicking, scrolling, and `fill_form` with its error swallowing (web_scraper.py:71-121, 177-192, 295-308). `Run` records only the order and values of the four form fills.
- `random_sleep` and the long post-submit sleeps are left out: they are random and wall-clock time.
- `extract_info` and `find_text` are left out: they are BeautifulSoup HTML parsing, library behaviour the model cannot see.
- The CSV table layout is left out: pandas decides it. Only the return value of `export_to_csv` is modelled, with the write outcome as a parameter.
- File-system I/O is left out. Opening a file is a boolean parameter, and a write failing part-way through a file is not modelled.
- The `TypeError` that `page_scrape` raises for a non-list argument is left out: a Dafny sequence is always a list.
- WebScraper.TxtExport: of the malformed bundles, only the id-keyed dictionary that `run` builds is modelled (KeyError on "depart"). A bundle missing "arrive", the dates or "flights" is not.
- WebScraper.FlightsData.Run: the returned name is modelled, but `driver.quit()` (success path only) is not.
- Python dictionaries in web_scraper.py are modelled as Dafny maps, plus the flights' iteration order as a sequence. A flight's keys are modelled with string values only.
- In flight_scrape.py, the module-level script (lines 104-122) and its globals are left out. The globals are the `Globals` parameter of the export.
- The except branch at flight_scrape.py:65-67 is left out. It calls `print` with `exc_info=True`, which `print` does not accept, so the branch raises TypeError rather than returning an empty dictionary.
- FlightScrape.PageScrape: a failed time lookup is reported by position only. The model does not say whether the origin or the destination lookup raised.
- app.py (the Flask route, CSV re-reading, date reformatting) and the test files are not part of this model.

## Findings

| source | as written | input that shows it | evidently intended | confidence | as-written member | corrected member |
|---|---|---|---|---|---|---|
| flight_scrape.py:123 | `export_file(scraped_data, ...)` passes the dictionary `page_scrape` returns. `for flight in flights_list` then visits its keys, which are strings, so `flight['departure_time']` raises TypeError after the header is written | any scrape with at least one flight, e.g. `{"AA 100": {"departure_time": "6:00 AM", "arrival_time": "9:00 AM"}}` | iterate the dictionary's values, as `export_to_txt` does with `.values()`, writing one line per flight | not executed | FlightScrape.ScriptExportRaises | FlightScrape.ExportFlightItemsLines |
