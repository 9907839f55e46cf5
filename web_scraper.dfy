/**
 * The rules inside the American Airlines scraper (web_scraper.py): fare
 * normalisation, assembly of flight records from result cards, the CSV file
 * name and form-fill order of a run, and the two exports.
 *
 * Browser work is abstracted: a fare node is its raw text, and a result card
 * is the text of each sub-element it was searched for, or None where the
 * element lookup would raise.
 */
module WebScraper {
  import opened Wrappers
  import opened PyStr
  import opened TextLines

  // ---------------------------------------------------------------------------
  // Fare normalisation
  // ---------------------------------------------------------------------------

  /** Sentinel for a fare tier the card does not show. */
  const NotAvailable := "N/A"

  /** The fixed triple returned by `process_prices`. */
  datatype Fares = Fares(basicEconomy: string, mainCabin: string, firstClass: string)

  /**
   * `get_price`: the text of `prices[index]` under Python indexing (a
   * negative index counts from the end), stripped, or the sentinel when the
   * index raises IndexError. GetPriceSpec states what it returns.
   */
  function GetPrice(prices: seq<string>, index: int): string {
    if -|prices| <= index < |prices| then
      Strip(prices[if index < 0 then |prices| + index else index])
    else
      NotAvailable
  }

  /**
   * In range, the price is the stripped text of the indexed node; out of range
   * it is the sentinel, and the call never fails. No price has edge whitespace.
   */
  lemma GetPriceSpec(prices: seq<string>, index: int)
    ensures 0 <= index < |prices| ==> GetPrice(prices, index) == Strip(prices[index])
    ensures -|prices| <= index < 0 ==> GetPrice(prices, index) == Strip(prices[|prices| + index])
    ensures index >= |prices| || index < -|prices| ==> GetPrice(prices, index) == NotAvailable
    ensures NoEdgeSpace(GetPrice(prices, index))
  {
    if -|prices| <= index < |prices| {
      StripSpec(prices[if index < 0 then |prices| + index else index]);
    }
  }

  /**
   * `process_prices`: three nodes fill the three tiers in order; any other
   * count leaves basic economy empty and reads the first two nodes as main
   * cabin and first class. ProcessPricesSpec states the cases.
   */
  function ProcessPrices(prices: seq<string>): Fares {
    if |prices| == 3 then
      Fares(GetPrice(prices, 0), GetPrice(prices, 1), GetPrice(prices, 2))
    else
      Fares(NotAvailable, GetPrice(prices, 0), GetPrice(prices, 1))
  }

  /** The tiers `process_prices` returns, by node count. */
  lemma ProcessPricesSpec(prices: seq<string>)
    ensures var f := ProcessPrices(prices);
            && (|prices| == 3 ==> f == Fares(Strip(prices[0]), Strip(prices[1]), Strip(prices[2])))
            && (|prices| != 3 ==> f.basicEconomy == NotAvailable)
            && (|prices| == 0 ==> f == Fares(NotAvailable, NotAvailable, NotAvailable))
            && (|prices| == 1 ==> f == Fares(NotAvailable, Strip(prices[0]), NotAvailable))
            && (|prices| == 2 || |prices| >= 4 ==> f == Fares(NotAvailable, Strip(prices[0]), Strip(prices[1])))
            && NoEdgeSpace(f.basicEconomy) && NoEdgeSpace(f.mainCabin) && NoEdgeSpace(f.firstClass)
  {
    GetPriceSpec(prices, 0);
    GetPriceSpec(prices, 1);
    GetPriceSpec(prices, 2);
  }

  /** Nodes after the second never matter unless there are exactly three. */
  lemma ProcessPricesIgnoresTail(prices: seq<string>)
    requires |prices| >= 4
    ensures ProcessPrices(prices) == ProcessPrices(prices[..2])
  {
  }

  // ---------------------------------------------------------------------------
  // Flight cards and records
  // ---------------------------------------------------------------------------

  /**
   * One result card. `flightNumbers` are the texts of every flight-number
   * span (more than one for a connection, possibly none). Each other field is
   * the text found by its selector chain, or None when a `find_element` on
   * the way raises NoSuchElementException.
   */
  datatype Card = Card(
    flightNumbers: seq<string>,
    departureTime: Option<string>,
    arrivalTime: Option<string>,
    duration: Option<string>,
    priceTexts: Option<seq<string>>)

  /** The tuple returned by `extract_flight_details`, prices already read. */
  datatype Details = Details(
    flight: seq<string>,
    departureTime: string,
    arrivalTime: string,
    duration: string,
    prices: seq<string>)

  /** One entry of the scraped dictionary; exactly these five keys. */
  datatype FlightRecord = FlightRecord(
    flightNumbers: seq<string>,
    departureTime: string,
    arrivalTime: string,
    duration: string,
    mainCabinPrice: string)

  datatype ScrapeError = NoSuchElement(card: nat)

  predicate Complete(card: Card) {
    card.departureTime.Some? && card.arrivalTime.Some? && card.duration.Some? && card.priceTexts.Some?
  }

  /** `extract_flight_details`: fails exactly when some sub-element is missing. */
  function ExtractFlightDetails(card: Card): (r: Option<Details>)
    ensures r.Some? <==> Complete(card)
    ensures r.Some? ==> r.value.flight == card.flightNumbers && r.value.prices == card.priceTexts.value
    ensures r.Some? ==> && r.value.departureTime == card.departureTime.value
                        && r.value.arrivalTime == card.arrivalTime.value
                        && r.value.duration == card.duration.value
  {
    if Complete(card) then
      Some(Details(card.flightNumbers, card.departureTime.value, card.arrivalTime.value,
                   card.duration.value, card.priceTexts.value))
    else
      None
  }

  /** The record `page_scrape` stores for one card: fares reduced to main cabin. */
  function RecordOf(card: Card): FlightRecord
    requires Complete(card)
  {
    FlightRecord(card.flightNumbers, card.departureTime.value, card.arrivalTime.value,
                 card.duration.value, ProcessPrices(card.priceTexts.value).mainCabin)
  }

  /**
   * The main-cabin price kept for a card is node 1 of exactly three nodes,
   * otherwise node 0, otherwise the sentinel; basic economy and first class
   * are dropped, so cards that differ only there give equal records.
   */
  lemma RecordKeepsMainCabinOnly(card: Card, other: Card)
    requires Complete(card) && Complete(other)
    requires other == card.(priceTexts := other.priceTexts)
    requires ProcessPrices(other.priceTexts.value).mainCabin == ProcessPrices(card.priceTexts.value).mainCabin
    ensures var p := card.priceTexts.value;
            RecordOf(card).mainCabinPrice ==
              if |p| == 3 then Strip(p[1]) else if |p| > 0 then Strip(p[0]) else NotAvailable
    ensures RecordOf(card) == RecordOf(other)
  {
  }

  /** The first n cards all have every sub-element. */
  predicate CompleteUpTo(cards: seq<Card>, n: nat)
    requires n <= |cards|
  {
    forall j :: 0 <= j < n ==> Complete(cards[j])
  }

  predicate AllComplete(cards: seq<Card>) {
    CompleteUpTo(cards, |cards|)
  }

  /** A dictionary that numbers the items from 1 in order, as `flight_id` does. */
  function Numbered<T>(items: seq<T>): map<int, T> {
    if items == [] then map[]
    else Numbered(items[..|items| - 1])[|items| := items[|items| - 1]]
  }

  /** The ids are exactly 1..n, there are n entries, and id k + 1 holds item k. */
  lemma {:induction false} NumberedShape<T>(items: seq<T>)
    ensures forall id :: id in Numbered(items) <==> 1 <= id <= |items|
    ensures |Numbered(items)| == |items|
    ensures forall k :: 0 <= k < |items| ==> Numbered(items)[k + 1] == items[k]
  {
    if items != [] {
      var prefix := items[..|items| - 1];
      NumberedShape(prefix);
      assert forall k :: 0 <= k < |prefix| ==> prefix[k] == items[k];
      assert |items| !in Numbered(prefix);
    }
  }

  /** The record of each card, in card order. */
  function RecordsOf(cards: seq<Card>): (records: seq<FlightRecord>)
    requires AllComplete(cards)
    ensures |records| == |cards|
    ensures forall k :: 0 <= k < |cards| ==> records[k] == RecordOf(cards[k])
  {
    seq(|cards|, k requires 0 <= k < |cards| && AllComplete(cards) => RecordOf(cards[k]))
  }

  /** The dictionary `page_scrape` builds from well-formed cards. */
  function Assemble(cards: seq<Card>): map<int, FlightRecord>
    requires AllComplete(cards)
  {
    Numbered(RecordsOf(cards))
  }

  /**
   * For n cards the ids are exactly 1..n, so there are n entries, and the
   * entry under id k + 1 is built from card k: none skipped, none reordered.
   */
  lemma AssembleShape(cards: seq<Card>)
    requires AllComplete(cards)
    ensures forall id :: id in Assemble(cards) <==> 1 <= id <= |cards|
    ensures |Assemble(cards)| == |cards|
    ensures forall k :: 0 <= k < |cards| ==> Assemble(cards)[k + 1] == RecordOf(cards[k])
  {
    var records := RecordsOf(cards);
    NumberedShape(records);
    forall k | 0 <= k < |cards| ensures Assemble(cards)[k + 1] == RecordOf(cards[k]) {
      assert Assemble(cards)[k + 1] == records[k];
    }
  }

  // ---------------------------------------------------------------------------
  // Export
  // ---------------------------------------------------------------------------

  /** `run` names the CSV after the airports: depart + "to" + arrive + ".csv". */
  function CsvName(depart: string, arrive: string): (name: string)
    ensures |name| == |depart| + |arrive| + 6
    ensures name[..|depart|] == depart
    ensures name[|depart|..|depart| + 2] == "to"
    ensures name[|depart| + 2..|name| - 4] == arrive
    ensures name[|name| - 4..] == ".csv"
  {
    depart + "to" + arrive + ".csv"
  }

  /**
   * For airport codes of one length the file name determines both airports.
   * (For arbitrary strings it does not: "Xto"/"Y" and "X"/"toY" share a name.)
   */
  lemma CsvNameInjective(d1: string, a1: string, d2: string, a2: string)
    requires |d1| == |d2| && CsvName(d1, a1) == CsvName(d2, a2)
    ensures d1 == d2 && a1 == a2
  {
    var n := CsvName(d1, a1);
    assert d1 == n[..|d1|] == d2;
    assert a1 == n[|d1| + 2..|n| - 4] == a2;
  }

  /**
   * What a `DataExport` holds as `_flights_dict`: either the id-to-record map
   * that `run` builds, or the bundle `export_to_txt` reads (route metadata and
   * the per-flight dictionaries in iteration order, as text values).
   */
  datatype ExportData =
    | Records(records: map<int, FlightRecord>)
    | Bundle(depart: string, arrive: string, departureDate: string, returnDate: string,
             flights: seq<map<string, string>>)

  datatype TxtOutcome =
    | Written
    | WriteErrorLogged            // PermissionError or OSError from open: printed, swallowed
    | KeyErrorRaised(key: string) // a missing dictionary key: propagates to the caller

  function TxtHeader(depart: string, departureDate: string, arrive: string, returnDate: string): string {
    "This is flights info from " + depart + " (" + departureDate + ") to " + arrive + "(" + returnDate + "):"
  }

  predicate HasTxtKeys(flight: map<string, string>) {
    "departure_time" in flight && "arrival_time" in flight && "main_cabin_price" in flight
  }

  /** The key whose lookup raises first when formatting a flight's line. */
  function MissingTxtKey(flight: map<string, string>): string
    requires !HasTxtKeys(flight)
  {
    if "departure_time" !in flight then "departure_time"
    else if "arrival_time" !in flight then "arrival_time"
    else "main_cabin_price"
  }

  /** One flight's line (without its "\n"); it ends with the main-cabin price and a space. */
  function TxtLine(flight: map<string, string>): (line: string)
    requires HasTxtKeys(flight)
    ensures var tail := flight["main_cabin_price"] + " ";
            |line| >= |tail| && line[|line| - |tail|..] == tail
  {
    "Departure Time: " + flight["departure_time"] + " | Arrival Time: " + flight["arrival_time"]
      + " | Main Cabin Price: " + flight["main_cabin_price"] + " "
  }

  /** A flight's line reads only its three keys; any other key is ignored. */
  lemma TxtLineIgnoresExtraKeys(flight: map<string, string>, other: map<string, string>)
    requires HasTxtKeys(flight) && HasTxtKeys(other)
    requires flight["departure_time"] == other["departure_time"]
    requires flight["arrival_time"] == other["arrival_time"]
    requires flight["main_cabin_price"] == other["main_cabin_price"]
    ensures TxtLine(flight) == TxtLine(other)
  {
  }

  function TxtLines(flights: seq<map<string, string>>): (lines: seq<string>)
    requires forall i :: 0 <= i < |flights| ==> HasTxtKeys(flights[i])
  {
    seq(|flights|, i requires 0 <= i < |flights| => TxtLine(flights[i]))
  }

  /** Index of the first flight whose line cannot be formatted, or the count. */
  function FirstMissingKeys(flights: seq<map<string, string>>): (k: nat)
    ensures k <= |flights|
    ensures forall i :: 0 <= i < k ==> HasTxtKeys(flights[i])
    ensures k < |flights| ==> !HasTxtKeys(flights[k])
  {
    if flights == [] || !HasTxtKeys(flights[0]) then 0 else 1 + FirstMissingKeys(flights[1..])
  }

  /**
   * The file `export_to_txt` leaves behind (None when it is never opened) and
   * how the call ends. Lines already written stay in the file when a later
   * flight raises KeyError.
   */
  function TxtExport(data: ExportData, openOk: bool): (r: (Option<string>, TxtOutcome))
    ensures r.0.Some? <==> data.Bundle? && openOk
    ensures r.1.Written? <==> data.Bundle? && openOk && forall i :: 0 <= i < |data.flights| ==> HasTxtKeys(data.flights[i])
    ensures data.Records? ==> r == (None, KeyErrorRaised("depart"))
    ensures data.Bundle? && !openOk ==> r == (None, WriteErrorLogged)
    ensures data.Bundle? && openOk && !r.1.Written? ==>
              var k := FirstMissingKeys(data.flights);
              k < |data.flights| && r.1 == KeyErrorRaised(MissingTxtKey(data.flights[k]))
    ensures data.Bundle? && openOk ==>
              r.0 == Some(JoinLines([TxtHeader(data.depart, data.departureDate, data.arrive, data.returnDate)]
                                    + TxtLines(data.flights[..FirstMissingKeys(data.flights)])))
  {
    match data
    case Records(_) => (None, KeyErrorRaised("depart"))
    case Bundle(depart, arrive, departureDate, returnDate, flights) =>
      if !openOk then (None, WriteErrorLogged)
      else
        var header := TxtHeader(depart, departureDate, arrive, returnDate);
        var k := FirstMissingKeys(flights);
        var file := Some(JoinLines([header] + TxtLines(flights[..k])));
        if k == |flights| then (file, Written) else (file, KeyErrorRaised(MissingTxtKey(flights[k])))
  }

  /** A flight whose line can be formatted and holds no line break. */
  predicate SingleLineFlight(flight: map<string, string>)
    requires HasTxtKeys(flight)
  {
    && NoNewline(flight["departure_time"])
    && NoNewline(flight["arrival_time"])
    && NoNewline(flight["main_cabin_price"])
  }

  /**
   * Read back line by line, a completed text export is the header followed by
   * one line per flight, in iteration order, when no value holds a line break.
   */
  lemma TxtExportLines(data: ExportData)
    requires data.Bundle?
    requires NoNewline(data.depart) && NoNewline(data.arrive)
    requires NoNewline(data.departureDate) && NoNewline(data.returnDate)
    requires forall i :: 0 <= i < |data.flights| ==> HasTxtKeys(data.flights[i])
    requires forall i :: 0 <= i < |data.flights| ==> SingleLineFlight(data.flights[i])
    ensures TxtExport(data, true).0.Some?
    ensures var lines := SplitLines(TxtExport(data, true).0.value);
            && |lines| == |data.flights| + 1
            && lines[0] == TxtHeader(data.depart, data.departureDate, data.arrive, data.returnDate)
            && forall i :: 0 <= i < |data.flights| ==> lines[i + 1] == TxtLine(data.flights[i])
  {
    var flights := data.flights;
    var header := TxtHeader(data.depart, data.departureDate, data.arrive, data.returnDate);
    var lines := [header] + TxtLines(flights);
    TxtExportComplete(data);
    HeaderSingleLine(data.depart, data.departureDate, data.arrive, data.returnDate);
    forall i | 1 <= i < |lines| ensures NoNewline(lines[i]) {
      TxtLineSingleLine(flights[i - 1]);
    }
    SplitJoin(lines);
  }

  lemma TxtExportComplete(data: ExportData)
    requires data.Bundle?
    requires forall i :: 0 <= i < |data.flights| ==> HasTxtKeys(data.flights[i])
    ensures TxtExport(data, true).0 ==
              Some(JoinLines([TxtHeader(data.depart, data.departureDate, data.arrive, data.returnDate)]
                             + TxtLines(data.flights)))
  {
    assert FirstMissingKeys(data.flights) == |data.flights|;
    assert data.flights[..|data.flights|] == data.flights;
  }

  lemma HeaderSingleLine(depart: string, departureDate: string, arrive: string, returnDate: string)
    requires NoNewline(depart) && NoNewline(departureDate) && NoNewline(arrive) && NoNewline(returnDate)
    ensures NoNewline(TxtHeader(depart, departureDate, arrive, returnDate))
  {
  }

  lemma TxtLineSingleLine(flight: map<string, string>)
    requires HasTxtKeys(flight) && SingleLineFlight(flight)
    ensures NoNewline(TxtLine(flight))
  {
  }

  /** The form fields `run` fills, in order, with the values it types. */
  const OriginField := "reservationFlightSearchForm.originAirport"
  const DestinationField := "reservationFlightSearchForm.destinationAirport"
  const LeavingOnField := "aa-leavingOn"
  const ReturningFromField := "aa-returningFrom"

  datatype FormFill = FormFill(fieldId: string, value: Option<string>)

  /** A scraper for one search; the query never changes after construction. */
  class FlightsData {
    const depart: string
    const arrive: string
    const departureDate: string
    const returnDate: Option<string>
    const tripType: string
    const airline: string

    constructor (depart: string, arrive: string, departureDate: string,
                 returnDate: Option<string> := None, tripType: string := "round trip",
                 airline: string := "AmericanAirline")
      ensures this.depart == depart && this.arrive == arrive
      ensures this.departureDate == departureDate && this.returnDate == returnDate
      ensures this.tripType == tripType && this.airline == airline
    {
      this.depart := depart;
      this.arrive := arrive;
      this.departureDate := departureDate;
      this.returnDate := returnDate;
      this.tripType := tripType;
      this.airline := airline;
    }

    /**
     * `page_scrape` over given cards: ids 1..n in card order, every card
     * kept, and the first card with a missing sub-element aborts the scrape.
     */
    method PageScrape(cards: seq<Card>) returns (r: Result<map<int, FlightRecord>, ScrapeError>)
      ensures r.Success? <==> AllComplete(cards)
      ensures r.Failure? ==>
                var k := r.error.card;
                k < |cards| && !Complete(cards[k]) && CompleteUpTo(cards, k)
      ensures r.Success? ==> r.value == Assemble(cards)
    {
      var flights: map<int, FlightRecord> := map[];
      var flightId := 1;
      ghost var records: seq<FlightRecord> := [];
      var i := 0;
      while i < |cards|
        invariant 0 <= i <= |cards| && flightId == i + 1
        invariant CompleteUpTo(cards, i)
        invariant |records| == i && forall k :: 0 <= k < i ==> records[k] == RecordOf(cards[k])
        invariant flights == Numbered(records)
      {
        var details := ExtractFlightDetails(cards[i]);
        if details.None? {
          return Failure(NoSuchElement(i));
        }
        var d := details.value;
        var fares := ProcessPrices(d.prices);
        var record := FlightRecord(d.flight, d.departureTime, d.arrivalTime, d.duration, fares.mainCabin);
        assert record == RecordOf(cards[i]);
        assert CompleteUpTo(cards, i + 1);
        flights := flights[flightId := record];
        flightId := flightId + 1;
        assert (records + [record])[..i] == records;
        records := records + [record];
        i := i + 1;
      }
      assert records == RecordsOf(cards);
      r := Success(flights);
    }

    /**
     * `run` after navigation: the four form fills in their fixed order, then
     * the scrape; on success the CSV is exported (its outcome is ignored) and
     * the airport-derived file name is returned.
     */
    method Run(cards: seq<Card>, csvWriteOk: bool) returns (fills: seq<FormFill>, r: Result<string, ScrapeError>)
      ensures fills == [FormFill(OriginField, Some(depart)), FormFill(DestinationField, Some(arrive)),
                        FormFill(LeavingOnField, Some(departureDate)), FormFill(ReturningFromField, returnDate)]
      ensures r.Success? <==> AllComplete(cards)
      ensures r.Success? ==> r.value == CsvName(depart, arrive)
    {
      fills := [FormFill(OriginField, Some(depart))];
      fills := fills + [FormFill(DestinationField, Some(arrive))];
      fills := fills + [FormFill(LeavingOnField, Some(departureDate))];
      fills := fills + [FormFill(ReturningFromField, returnDate)];
      var scraped := PageScrape(cards);
      if scraped.Failure? {
        return fills, Failure(scraped.error);
      }
      var csvName := CsvName(depart, arrive);
      var exporter := new DataExport(csvName, Records(scraped.value));
      var _ := exporter.ExportToCsv(csvWriteOk);
      r := Success(csvName);
    }
  }

  /** An exporter bound to one output file name and one flights dictionary. */
  class DataExport {
    const fileName: string
    const flightsDict: ExportData

    constructor (fileName: string, flightsDict: ExportData)
      ensures this.fileName == fileName && this.flightsDict == flightsDict
    {
      this.fileName := fileName;
      this.flightsDict := flightsDict;
    }

    /**
     * `export_to_csv`: the file name when the write succeeds, the four-letter
     * string "None" (not a null) when it raises OSError.
     */
    method ExportToCsv(writeOk: bool) returns (r: string)
      ensures writeOk ==> r == fileName
      ensures !writeOk ==> r == "None"
    {
      if writeOk {
        r := fileName;
      } else {
        r := "None";
      }
    }

    /**
     * `export_to_txt`: looks up the route metadata, opens the file, writes the
     * header line, then one line per flight.
     */
    method ExportToTxt(openOk: bool) returns (file: Option<string>, outcome: TxtOutcome)
      ensures (file, outcome) == TxtExport(flightsDict, openOk)
    {
      if flightsDict.Records? {
        return None, KeyErrorRaised("depart");
      }
      var depart, arrive := flightsDict.depart, flightsDict.arrive;
      var departureDate, returnDate := flightsDict.departureDate, flightsDict.returnDate;
      if !openOk {
        return None, WriteErrorLogged;
      }
      var header := TxtHeader(depart, departureDate, arrive, returnDate);
      var content := header + "\n";
      var flights := flightsDict.flights;
      var i := 0;
      assert [header] + TxtLines(flights[..0]) == [header];
      while i < |flights|
        invariant 0 <= i <= |flights|
        invariant forall j :: 0 <= j < i ==> HasTxtKeys(flights[j])
        invariant content == JoinLines([header] + TxtLines(flights[..i]))
      {
        if !HasTxtKeys(flights[i]) {
          assert FirstMissingKeys(flights) == i;
          return Some(content), KeyErrorRaised(MissingTxtKey(flights[i]));
        }
        var line := TxtLine(flights[i]);
        JoinLinesSnoc([header] + TxtLines(flights[..i]), line);
        content := content + line + "\n";
        assert [header] + TxtLines(flights[..i + 1]) == [header] + TxtLines(flights[..i]) + [line];
        i := i + 1;
      }
      assert FirstMissingKeys(flights) == |flights|;
      assert flights[..i] == flights;
      file, outcome := Some(content), Written;
    }
  }
}
