/**
 * The prototype scraper (flight_scrape.py): after its waits, `page_scrape`
 * pairs three element lists position by position into a dictionary keyed by
 * flight-number text, and `export_file` writes one line per flight.
 *
 * An element list is given as the texts the code reads from it; for the
 * origin and destination blocks an entry is None when the nested time lookup
 * would raise NoSuchElementException.
 */
module FlightScrape {
  import opened Wrappers
  import opened TextLines

  /** One dictionary value: exactly the two keys the prototype stores. */
  datatype FlightTimes = FlightTimes(departureTime: string, arrivalTime: string)

  /**
   * A Python dict from flight-number text to times: its keys in insertion
   * order, and its contents.
   */
  datatype FlightsDict = FlightsDict(order: seq<string>, entries: map<string, FlightTimes>)

  predicate Distinct(s: seq<string>) {
    forall i, j :: 0 <= i < j < |s| ==> s[i] != s[j]
  }

  /** Each key listed once, and exactly the keys present, so `len` is `|order|`. */
  ghost predicate Valid(d: FlightsDict) {
    Distinct(d.order) && d.entries.Keys == set key | key in d.order
  }

  const Empty := FlightsDict([], map[])

  /**
   * `d[key] = value`: a new key is appended to the order; an existing key
   * keeps its place and takes the new value.
   */
  function Insert(d: FlightsDict, key: string, value: FlightTimes): (r: FlightsDict)
    ensures r.entries == d.entries[key := value]
    ensures |r.order| == if key in d.entries then |d.order| else |d.order| + 1
  {
    if key in d.entries then FlightsDict(d.order, d.entries[key := value])
    else FlightsDict(d.order + [key], d.entries[key := value])
  }

  /** Assignment keeps each key listed once, and exactly the keys present. */
  lemma InsertValid(d: FlightsDict, key: string, value: FlightTimes)
    requires Valid(d)
    ensures Valid(Insert(d, key, value))
    ensures Insert(d, key, value).order[..|d.order|] == d.order
  {
    if key !in d.entries {
      DistinctSnoc(d.order, key);
    }
  }

  datatype ScrapeError = NoSuchElement(index: nat)

  predicate TimesFound(originTimes: seq<Option<string>>, destinationTimes: seq<Option<string>>, j: nat)
    requires j < |originTimes| && j < |destinationTimes|
  {
    originTimes[j].Some? && destinationTimes[j].Some?
  }

  /**
   * The dictionary after the first n positions of the zipped lists, or the
   * lookup failure that ends the loop.
   */
  function Collected(numbers: seq<string>, originTimes: seq<Option<string>>,
                     destinationTimes: seq<Option<string>>, n: nat): Result<FlightsDict, ScrapeError>
    requires n <= |numbers| && n <= |originTimes| && n <= |destinationTimes|
  {
    if n == 0 then Success(Empty)
    else
      var before := Collected(numbers, originTimes, destinationTimes, n - 1);
      if before.Failure? then before
      else if !TimesFound(originTimes, destinationTimes, n - 1) then Failure(NoSuchElement(n - 1))
      else
        Success(Insert(before.value, numbers[n - 1],
                       FlightTimes(originTimes[n - 1].value, destinationTimes[n - 1].value)))
  }

  /**
   * The zip succeeds exactly when every position has both times, and
   * otherwise fails at the first position missing one.
   */
  lemma {:induction false} CollectedOutcome(numbers: seq<string>, originTimes: seq<Option<string>>,
                                            destinationTimes: seq<Option<string>>, n: nat)
    requires n <= |numbers| && n <= |originTimes| && n <= |destinationTimes|
    ensures Collected(numbers, originTimes, destinationTimes, n).Success? <==>
              forall j :: 0 <= j < n ==> TimesFound(originTimes, destinationTimes, j)
    ensures Collected(numbers, originTimes, destinationTimes, n).Failure? ==>
              var k := Collected(numbers, originTimes, destinationTimes, n).error.index;
              && k < n
              && !TimesFound(originTimes, destinationTimes, k)
              && forall j :: 0 <= j < k ==> TimesFound(originTimes, destinationTimes, j)
  {
    if n > 0 {
      CollectedOutcome(numbers, originTimes, destinationTimes, n - 1);
    }
  }

  /** A zipped dictionary lists each key once, and exactly the keys present. */
  lemma {:induction false} CollectedValid(numbers: seq<string>, originTimes: seq<Option<string>>,
                                          destinationTimes: seq<Option<string>>, n: nat)
    requires n <= |numbers| && n <= |originTimes| && n <= |destinationTimes|
    requires Collected(numbers, originTimes, destinationTimes, n).Success?
    ensures Valid(Collected(numbers, originTimes, destinationTimes, n).value)
  {
    if n > 0 {
      CollectedStep(numbers, originTimes, destinationTimes, n);
      CollectedValid(numbers, originTimes, destinationTimes, n - 1);
      InsertValid(Collected(numbers, originTimes, destinationTimes, n - 1).value, numbers[n - 1],
                  FlightTimes(originTimes[n - 1].value, destinationTimes[n - 1].value));
    }
  }

  /** Once the zip has failed at position i, the later positions change nothing. */
  lemma {:induction false} CollectedFailsAt(numbers: seq<string>, originTimes: seq<Option<string>>,
                                            destinationTimes: seq<Option<string>>, i: nat, n: nat)
    requires i < n <= |numbers| && n <= |originTimes| && n <= |destinationTimes|
    requires Collected(numbers, originTimes, destinationTimes, i).Success?
    requires !TimesFound(originTimes, destinationTimes, i)
    ensures Collected(numbers, originTimes, destinationTimes, n) == Failure(NoSuchElement(i))
  {
    if n > i + 1 {
      CollectedFailsAt(numbers, originTimes, destinationTimes, i, n - 1);
    }
  }

  /**
   * `page_scrape` after its waits. Lists of different lengths give an empty
   * dictionary; otherwise the result is the zipped dictionary. The duration
   * and price lists are fetched but never read.
   */
  method PageScrape(originTimes: seq<Option<string>>, destinationTimes: seq<Option<string>>,
                    flightNumbers: seq<string>, durations: seq<string>, prices: seq<string>)
    returns (r: Result<FlightsDict, ScrapeError>)
    ensures |originTimes| != |destinationTimes| || |originTimes| != |flightNumbers| ==> r == Success(Empty)
    ensures |originTimes| == |destinationTimes| == |flightNumbers| ==>
              r == Collected(flightNumbers, originTimes, destinationTimes, |flightNumbers|)
  {
    var flights := Empty;
    if |originTimes| != |destinationTimes| || |originTimes| != |flightNumbers| {
      return Success(flights);
    }
    var i := 0;
    while i < |flightNumbers|
      invariant 0 <= i <= |flightNumbers|
      invariant Collected(flightNumbers, originTimes, destinationTimes, i) == Success(flights)
    {
      var number := flightNumbers[i];
      if originTimes[i].None? || destinationTimes[i].None? {
        CollectedFailsAt(flightNumbers, originTimes, destinationTimes, i, |flightNumbers|);
        return Failure(NoSuchElement(i));
      }
      var departureTime := originTimes[i].value;
      var arrivalTime := destinationTimes[i].value;
      flights := Insert(flights, number, FlightTimes(departureTime, arrivalTime));
      i := i + 1;
    }
    r := Success(flights);
  }

  /** One step of the zip: the first n - 1 positions succeeded and position n - 1 was inserted. */
  lemma CollectedStep(numbers: seq<string>, originTimes: seq<Option<string>>,
                      destinationTimes: seq<Option<string>>, n: nat)
    requires 0 < n <= |numbers| && n <= |originTimes| && n <= |destinationTimes|
    requires Collected(numbers, originTimes, destinationTimes, n).Success?
    ensures Collected(numbers, originTimes, destinationTimes, n - 1).Success?
    ensures originTimes[n - 1].Some? && destinationTimes[n - 1].Some?
    ensures Collected(numbers, originTimes, destinationTimes, n).value
              == Insert(Collected(numbers, originTimes, destinationTimes, n - 1).value, numbers[n - 1],
                        FlightTimes(originTimes[n - 1].value, destinationTimes[n - 1].value))
  {
  }

  /** The keys of the zipped dictionary are exactly the flight-number texts. */
  lemma {:induction false} CollectedKeys(numbers: seq<string>, originTimes: seq<Option<string>>,
                                         destinationTimes: seq<Option<string>>, n: nat)
    requires n <= |numbers| && n <= |originTimes| && n <= |destinationTimes|
    requires Collected(numbers, originTimes, destinationTimes, n).Success?
    ensures forall key :: key in Collected(numbers, originTimes, destinationTimes, n).value.entries
                          <==> key in numbers[..n]
  {
    if n > 0 {
      CollectedStep(numbers, originTimes, destinationTimes, n);
      CollectedKeys(numbers, originTimes, destinationTimes, n - 1);
      assert numbers[..n] == numbers[..n - 1] + [numbers[n - 1]];
    }
  }

  /**
   * Under a repeated flight-number text, the entry from the last position
   * holding it wins: its times are those found at that position.
   */
  lemma {:induction false} CollectedLaterWins(numbers: seq<string>, originTimes: seq<Option<string>>,
                                              destinationTimes: seq<Option<string>>, n: nat, j: nat)
    requires n <= |numbers| && n <= |originTimes| && n <= |destinationTimes|
    requires Collected(numbers, originTimes, destinationTimes, n).Success?
    requires j < n && forall k :: j < k < n ==> numbers[k] != numbers[j]
    ensures originTimes[j].Some? && destinationTimes[j].Some?
    ensures numbers[j] in Collected(numbers, originTimes, destinationTimes, n).value.entries
    ensures Collected(numbers, originTimes, destinationTimes, n).value.entries[numbers[j]]
              == FlightTimes(originTimes[j].value, destinationTimes[j].value)
  {
    CollectedOutcome(numbers, originTimes, destinationTimes, n);
    assert TimesFound(originTimes, destinationTimes, j);
    CollectedStep(numbers, originTimes, destinationTimes, n);
    if j < n - 1 {
      CollectedLaterWins(numbers, originTimes, destinationTimes, n - 1, j);
    }
  }

  lemma DistinctSnoc(s: seq<string>, x: string)
    ensures Distinct(s + [x]) <==> Distinct(s) && x !in s
  {
    var t := s + [x];
    if Distinct(t) {
      forall a, b | 0 <= a < b < |s| ensures s[a] != s[b] {
        assert t[a] == s[a] && t[b] == s[b];
      }
      forall a | 0 <= a < |s| ensures s[a] != x {
        assert t[a] == s[a] && t[|s|] == x;
      }
    }
  }

  /** `len` of a dictionary: its keys, each listed once in `order`. */
  function Len(d: FlightsDict): nat {
    |d.order|
  }

  /** A well-formed dictionary has exactly `Len` entries. */
  lemma {:induction false} ValidSize(d: FlightsDict)
    requires Valid(d)
    ensures |d.entries| == Len(d)
  {
    KeySetSize(d.order);
  }

  /** Listing each key once, a key order has as many elements as keys. */
  lemma {:induction false} KeySetSize(s: seq<string>)
    requires Distinct(s)
    ensures |set key | key in s| == |s|
  {
    if s != [] {
      var init := s[..|s| - 1];
      var x := s[|s| - 1];
      assert s == init + [x];
      DistinctSnoc(init, x);
      KeySetSize(init);
      assert (set key | key in s) == (set key | key in init) + {x};
    }
  }

  /**
   * The dictionary has at most as many entries as positions, and exactly as
   * many when the flight-number texts are pairwise distinct.
   */
  lemma {:induction false} CollectedSize(numbers: seq<string>, originTimes: seq<Option<string>>,
                                         destinationTimes: seq<Option<string>>, n: nat)
    requires n <= |numbers| && n <= |originTimes| && n <= |destinationTimes|
    requires Collected(numbers, originTimes, destinationTimes, n).Success?
    ensures Len(Collected(numbers, originTimes, destinationTimes, n).value) <= n
    ensures (Len(Collected(numbers, originTimes, destinationTimes, n).value) == n)
              == Distinct(numbers[..n])
  {
    if n > 0 {
      CollectedStep(numbers, originTimes, destinationTimes, n);
      CollectedSize(numbers, originTimes, destinationTimes, n - 1);
      CollectedKeys(numbers, originTimes, destinationTimes, n - 1);
      assert numbers[..n] == numbers[..n - 1] + [numbers[n - 1]];
      DistinctSnoc(numbers[..n - 1], numbers[n - 1]);
    }
  }

  // ---------------------------------------------------------------------------
  // export_file
  // ---------------------------------------------------------------------------

  /** The module-level globals the export header reads. */
  datatype Globals = Globals(depart: string, arrive: string, departureDate: string, returnDate: string)

  /** An element of the list `export_file` iterates over. */
  datatype Item = DictItem(fields: map<string, string>) | StrItem(text: string)

  datatype FileOutcome =
    | Completed
    | KeyErrorRaised(key: string)
    | TypeErrorRaised   // subscripting a str with a str key
    | OpenErrorRaised   // `open` failed; nothing is caught

  function Header(g: Globals): string {
    "This is flights info from " + g.depart + " (" + g.departureDate + ") to " + g.arrive + "(" + g.returnDate + "):"
  }

  predicate Writable(item: Item) {
    item.DictItem? && "departure_time" in item.fields && "arrival_time" in item.fields
  }

  /** How formatting an unwritable item fails: the first failing subscript. */
  function ItemError(item: Item): FileOutcome
    requires !Writable(item)
  {
    if item.StrItem? then TypeErrorRaised
    else if "departure_time" !in item.fields then KeyErrorRaised("departure_time")
    else KeyErrorRaised("arrival_time")
  }

  function ItemLine(item: Item): string
    requires Writable(item)
  {
    "Departure Time: " + item.fields["departure_time"] + " | Arrival Time: " + item.fields["arrival_time"]
  }

  function ItemLines(items: seq<Item>): seq<string>
    requires forall i :: 0 <= i < |items| ==> Writable(items[i])
  {
    seq(|items|, i requires 0 <= i < |items| => ItemLine(items[i]))
  }

  /** Index of the first item whose line cannot be formatted, or the count. */
  function FirstUnwritable(items: seq<Item>): (k: nat)
    ensures k <= |items|
    ensures forall i :: 0 <= i < k ==> Writable(items[i])
    ensures k < |items| ==> !Writable(items[k])
  {
    if items == [] || !Writable(items[0]) then 0 else 1 + FirstUnwritable(items[1..])
  }

  /**
   * The file `export_file` leaves (None when `open` fails) and how it ends:
   * the header, then one line per item until an item cannot be formatted.
   */
  function FileExport(g: Globals, items: seq<Item>, openOk: bool): (r: (Option<string>, FileOutcome))
    ensures r.0.Some? <==> openOk
    ensures r.1.Completed? <==> openOk && forall i :: 0 <= i < |items| ==> Writable(items[i])
    ensures !openOk ==> r == (None, OpenErrorRaised)
    ensures openOk && !r.1.Completed? ==>
              var k := FirstUnwritable(items);
              k < |items| && r.1 == ItemError(items[k])
    ensures openOk ==> r.0 == Some(JoinLines([Header(g)] + ItemLines(items[..FirstUnwritable(items)])))
  {
    if !openOk then (None, OpenErrorRaised)
    else
      var k := FirstUnwritable(items);
      var file := Some(JoinLines([Header(g)] + ItemLines(items[..k])));
      if k == |items| then (file, Completed) else (file, ItemError(items[k]))
  }

  /** `export_file`: writes the header, then each item's line, in list order. */
  method ExportFile(g: Globals, items: seq<Item>, openOk: bool) returns (file: Option<string>, outcome: FileOutcome)
    ensures (file, outcome) == FileExport(g, items, openOk)
  {
    if !openOk {
      return None, OpenErrorRaised;
    }
    var content := Header(g) + "\n";
    var i := 0;
    assert [Header(g)] + ItemLines(items[..0]) == [Header(g)];
    while i < |items|
      invariant 0 <= i <= |items|
      invariant forall j :: 0 <= j < i ==> Writable(items[j])
      invariant content == JoinLines([Header(g)] + ItemLines(items[..i]))
    {
      if !Writable(items[i]) {
        assert FirstUnwritable(items) == i;
        return Some(content), ItemError(items[i]);
      }
      var line := ItemLine(items[i]);
      JoinLinesSnoc([Header(g)] + ItemLines(items[..i]), line);
      content := content + line + "\n";
      assert [Header(g)] + ItemLines(items[..i + 1]) == [Header(g)] + ItemLines(items[..i]) + [line];
      i := i + 1;
    }
    assert FirstUnwritable(items) == |items|;
    assert items[..i] == items;
    file, outcome := Some(content), Completed;
  }

  // ---------------------------------------------------------------------------
  // Exporting the scraped dictionary
  // ---------------------------------------------------------------------------

  /**
   * What `for flight in flights_list` visits when the scraped dictionary
   * itself is passed, as the script does: its keys, which are str.
   */
  function IterateAsWritten(d: FlightsDict): seq<Item> {
    seq(|d.order|, i requires 0 <= i < |d.order| => StrItem(d.order[i]))
  }

  /**
   * Passing the scraped dictionary to `export_file` writes only the header and
   * then raises TypeError, whenever at least one flight was scraped.
   */
  lemma ScriptExportRaises(g: Globals, d: FlightsDict)
    requires |d.order| > 0
    ensures FileExport(g, IterateAsWritten(d), true) == (Some(Header(g) + "\n"), TypeErrorRaised)
  {
    var items := IterateAsWritten(d);
    assert !Writable(items[0]);
    assert FirstUnwritable(items) == 0;
    assert ItemLines(items[..0]) == [];
    assert [Header(g)] + ItemLines(items[..0]) == [Header(g)];
    assert [Header(g)][1..] == [];
    assert JoinLines([Header(g)]) == Header(g) + "\n" + JoinLines([]);
    assert JoinLines([]) == [];
    assert items[0].StrItem? && ItemError(items[0]) == TypeErrorRaised;
    assert Header(g) + "\n" + [] == Header(g) + "\n";
    assert FileExport(g, items, true).0 == Some(JoinLines([Header(g)] + ItemLines(items[..0])));
  }

  function AsFields(times: FlightTimes): map<string, string> {
    map["departure_time" := times.departureTime, "arrival_time" := times.arrivalTime]
  }

  /** The dictionary's values in insertion order: what the export evidently meant to visit. */
  function FlightItems(d: FlightsDict): (items: seq<Item>)
    requires Valid(d)
    ensures |items| == |d.order|
    ensures forall i :: 0 <= i < |items| ==> Writable(items[i])
  {
    seq(|d.order|, i requires 0 <= i < |d.order| => DictItem(AsFields(d.entries[d.order[i]])))
  }

  function TimesLine(times: FlightTimes): string {
    "Departure Time: " + times.departureTime + " | Arrival Time: " + times.arrivalTime
  }

  /** One line per flight, in the dictionary's insertion order. */
  function FlightLines(d: FlightsDict): (lines: seq<string>)
    requires Valid(d)
    ensures |lines| == |d.order|
  {
    seq(|d.order|, i requires 0 <= i < |d.order| => TimesLine(d.entries[d.order[i]]))
  }

  /**
   * Exporting the dictionary's values completes, and read back line by line
   * the file is the header and then each flight's line in insertion order,
   * when no text holds a line break.
   */
  lemma ExportFlightItemsLines(g: Globals, d: FlightsDict)
    requires Valid(d)
    requires NoNewline(g.depart) && NoNewline(g.arrive) && NoNewline(g.departureDate) && NoNewline(g.returnDate)
    requires forall key :: key in d.entries ==>
               NoNewline(d.entries[key].departureTime) && NoNewline(d.entries[key].arrivalTime)
    ensures FileExport(g, FlightItems(d), true).1 == Completed
    ensures SplitLines(FileExport(g, FlightItems(d), true).0.value) == [Header(g)] + FlightLines(d)
  {
    var lines := [Header(g)] + FlightLines(d);
    FlightItemsFile(g, d);
    FlightLinesSingle(d);
    assert forall i :: 1 <= i < |lines| ==> lines[i] == FlightLines(d)[i - 1];
    SplitJoin(lines);
  }

  lemma FlightLinesSingle(d: FlightsDict)
    requires Valid(d)
    requires forall key :: key in d.entries ==>
               NoNewline(d.entries[key].departureTime) && NoNewline(d.entries[key].arrivalTime)
    ensures forall i :: 0 <= i < |FlightLines(d)| ==> NoNewline(FlightLines(d)[i])
  {
    forall i | 0 <= i < |d.order| ensures NoNewline(FlightLines(d)[i]) {
      assert d.order[i] in d.entries;
    }
  }

  lemma FlightItemsFile(g: Globals, d: FlightsDict)
    requires Valid(d)
    ensures FileExport(g, FlightItems(d), true) == (Some(JoinLines([Header(g)] + FlightLines(d))), Completed)
  {
    var items := FlightItems(d);
    assert FirstUnwritable(items) == |items|;
    assert items[..|items|] == items;
    assert ItemLines(items) == FlightLines(d);
  }

  /** The scrape-then-export the script evidently intends, over the dictionary's values. */
  method ExportScraped(g: Globals, d: FlightsDict, openOk: bool) returns (file: Option<string>, outcome: FileOutcome)
    requires Valid(d)
    ensures outcome == if openOk then Completed else OpenErrorRaised
    ensures (file, outcome) == FileExport(g, FlightItems(d), openOk)
  {
    file, outcome := ExportFile(g, FlightItems(d), openOk);
  }
}
