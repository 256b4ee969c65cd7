/**
 * `Leaderboard.cs`: the request packet and the leaderboard screen, which
 * fetches the comma-separated score list, parses every entry as an `int`
 * and ranks the scores from highest to lowest. One unparsable entry
 * replaces the whole list by the parse error's message.
 */
module Leaderboard {
  import opened Common
  import opened Decimal
  import opened Sorting
  import Text

  /** A request's target, optional body and content type; set once by a constructor. */
  class RequestPacket {
    const url: string
    const data: Option<string>
    const contentType: string

    /** `RequestPacket(url, data, contentType)`. */
    constructor Full(url: string, data: string, contentType: string)
      ensures this.url == url && this.data == Some(data) && this.contentType == contentType
    {
      this.url := url;
      this.data := Some(data);
      this.contentType := contentType;
    }

    /** `RequestPacket(url, data)`: JSON content. */
    constructor WithData(url: string, data: string)
      ensures this.url == url && this.data == Some(data) && this.contentType == "application/json"
    {
      this.url := url;
      this.data := Some(data);
      contentType := "application/json";
    }

    /** `RequestPacket(url)`: no body, and the content type as spelled in the source, "applications/json". */
    constructor (url: string)
      ensures this.url == url && this.data == None && this.contentType == "applications/json"
    {
      this.url := url;
      data := None;
      contentType := "applications/json";
    }

    function GetUrl(): string { url }

    function GetData(): Option<string> { data }

    function GetContentType(): string { contentType }
  }

  /** How an HTTP request ended; the network itself is not modelled. */
  datatype RequestOutcome =
    | Delivered(responseBody: string) // a success status and its body
    | HttpFailure(message: string)    // `HttpRequestException`: refused connection, error status
    | OtherFailure(message: string)   // any other exception, such as a timeout's cancellation

  /**
   * `postRequest(url, data)`: the response body on success; an HTTP
   * failure is caught and turned into null; any other exception escapes
   * (`Err`).
   */
  function PostRequest(outcome: RequestOutcome): (r: Result<Option<string>, string>)
    ensures r.Ok? <==> !outcome.OtherFailure?
    ensures r.Ok? && r.value.Some? <==> outcome.Delivered?
  {
    match outcome
    case Delivered(body) => Ok(Some(body))
    case HttpFailure(_) => Ok(None)
    case OtherFailure(message) => Err(message)
  }

  /** `getRequest(url)`: the response body, or a fixed prefix and the message of an HTTP failure; other exceptions escape. */
  function GetRequest(outcome: RequestOutcome): (r: Result<string, string>)
    ensures outcome.Delivered? ==> r == Ok(outcome.responseBody)
    ensures outcome.HttpFailure? ==> r == Ok(FetchFailureText(outcome.message))
    ensures outcome.OtherFailure? ==> r.Err?
  {
    match outcome
    case Delivered(body) => Ok(body)
    case HttpFailure(message) => Ok(FetchFailureText(message))
    case OtherFailure(message) => Err(message)
  }

  /** The base address every packet of the game's score client targets. */
  const ScoreStorageUrl: string := "http://localhost:3000/"

  /** The text `getRequest` returns when the request fails with an HTTP error. */
  function FetchFailureText(message: string): string
  {
    "Error 404: Unable to retrieve: " + message
  }

  /** `formatScores(scoreData)`: the entries between commas; joining them with "," gives the response back. */
  function FormatScores(scoreData: string): (r: seq<string>)
    ensures |r| == Text.Count(scoreData, ',') + 1
    ensures Text.Join(r, ",") == scoreData
    ensures forall k :: 0 <= k < |r| ==> ',' !in r[k]
  {
    Text.SplitCount(scoreData, ',');
    Text.JoinSplit(scoreData, ',');
    Text.SplitPiecesFree(scoreData, ',');
    Text.Split(scoreData, ',')
  }

  predicate AllParse(entries: seq<string>)
  {
    forall k :: 0 <= k < |entries| ==> ParseInt(entries[k]).Ok?
  }

  function ParsedValues(entries: seq<string>): (r: seq<int>)
    requires AllParse(entries)
    ensures |r| == |entries|
    ensures forall k :: 0 <= k < |r| ==> ParseInt(entries[k]) == Ok(r[k])
  {
    seq(|entries|, k requires 0 <= k < |entries| => ParseInt(entries[k]).value)
  }

  /** The first entry that fails to parse. */
  function FirstFailure(entries: seq<string>): (r: nat)
    requires !AllParse(entries)
    ensures r < |entries| && ParseInt(entries[r]).Err?
    ensures forall k :: 0 <= k < r ==> ParseInt(entries[k]).Ok?
  {
    if ParseInt(entries[0]).Err? then 0
    else
      TailFails(entries);
      1 + FirstFailure(entries[1..])
  }

  /** When some entry fails to parse and the first does not, some entry of the tail fails. */
  lemma TailFails(entries: seq<string>)
    requires !AllParse(entries) && ParseInt(entries[0]).Ok?
    ensures !AllParse(entries[1..])
  {
    var k :| 0 <= k < |entries| && ParseInt(entries[k]).Err?;
    assert entries[1..][k - 1] == entries[k];
  }

  /** An entry that fails after entries that all parse is the first failure. */
  lemma FirstFailureAt(entries: seq<string>, i: nat)
    requires i < |entries| && ParseInt(entries[i]).Err?
    requires forall k :: 0 <= k < i ==> ParseInt(entries[k]).Ok?
    ensures !AllParse(entries) && FirstFailure(entries) == i
  {
  }

  /** Highest first: ascending sort, then reversal (`Array.Sort` then `Array.Reverse`). */
  function Ranking(values: seq<int>): seq<int>
  {
    Reverse(InsertionSort(values, IntLe))
  }

  /** The ranking is a permutation of the values in non-increasing order. */
  lemma {:induction false} RankingFacts(values: seq<int>)
    ensures |Ranking(values)| == |values|
    ensures multiset(Ranking(values)) == multiset(values)
    ensures forall i, j :: 0 <= i < j < |values| ==> Ranking(values)[i] >= Ranking(values)[j]
  {
    var sorted := InsertionSort(values, IntLe);
    AscendingFacts(values);
    ReverseMultiset(sorted);
    ReversedAscending(sorted);
  }

  /** Reversing an ascending sequence gives a non-increasing one. */
  lemma ReversedAscending(s: seq<int>)
    requires forall i, j :: 0 <= i < j < |s| ==> s[i] <= s[j]
    ensures forall i, j :: 0 <= i < j < |s| ==> Reverse(s)[i] >= Reverse(s)[j]
  {
    forall i, j | 0 <= i < j < |s|
      ensures Reverse(s)[i] >= Reverse(s)[j]
    {
      assert Reverse(s)[i] == s[|s| - 1 - i];
      assert Reverse(s)[j] == s[|s| - 1 - j];
    }
  }

  /** The ascending sort of the values, as `Array.Sort` leaves it. */
  lemma AscendingFacts(values: seq<int>)
    ensures |InsertionSort(values, IntLe)| == |values|
    ensures multiset(InsertionSort(values, IntLe)) == multiset(values)
    ensures forall i, j :: 0 <= i < j < |values| ==> InsertionSort(values, IntLe)[i] <= InsertionSort(values, IntLe)[j]
  {
    IntLeIsTotalOrder();
    SortFacts(values, IntLe);
  }

  /** `n.ToString()` for every ranked value. */
  function ToDecimals(values: seq<int>): (r: seq<string>)
    ensures |r| == |values|
    ensures forall k :: 0 <= k < |r| ==> r[k] == ToDecimal(values[k])
  {
    seq(|values|, k requires 0 <= k < |values| => ToDecimal(values[k]))
  }

  /**
   * A score list written as comma-joined `n.ToString()` values, as both
   * servers return it for scores posted by the game, splits back into
   * exactly those entries, each of which parses to its value.
   */
  lemma {:induction false} ReadsPostedScores(values: seq<int>)
    requires |values| >= 1
    requires forall k :: 0 <= k < |values| ==> IsInt32(values[k])
    ensures FormatScores(Text.Join(ToDecimals(values), ",")) == ToDecimals(values)
    ensures AllParse(ToDecimals(values)) && ParsedValues(ToDecimals(values)) == values
  {
    var parts := ToDecimals(values);
    forall k | 0 <= k < |parts|
      ensures ',' !in parts[k] && ParseInt(parts[k]) == Ok(values[k])
    {
      DecimalShape(values[k]);
      ParseOfDecimal(values[k]);
    }
    Text.SplitJoin(parts, ',');
  }

  /** What `sortScoreArray` returns for the entries it is given. */
  function RankedScores(entries: seq<string>): seq<string>
  {
    if AllParse(entries) then ToDecimals(Ranking(ParsedValues(entries)))
    else [ParseInt(entries[FirstFailure(entries)]).error.Message()]
  }

  /**
   * When every entry parses, the ranked list has one decimal entry per
   * input entry, its values are the parsed values rearranged, highest
   * first, and each entry parses back to its value.
   */
  lemma {:induction false} RankedScoresSorted(entries: seq<string>)
    requires AllParse(entries)
    ensures var r := RankedScores(entries);
      && |r| == |entries|
      && AllParse(r)
      && multiset(ParsedValues(r)) == multiset(ParsedValues(entries))
      && forall i, j :: 0 <= i < j < |r| ==> ParsedValues(r)[i] >= ParsedValues(r)[j]
  {
    var values := ParsedValues(entries);
    var ranked := Ranking(values);
    RankingFacts(values);
    ParsedValuesInRange(entries);
    forall k | 0 <= k < |ranked|
      ensures IsInt32(ranked[k])
    {
      assert ranked[k] in multiset(values);
    }
    DecimalsParseBack(ranked);
  }

  /** Parsed values are 32-bit. */
  lemma {:induction false} ParsedValuesInRange(entries: seq<string>)
    requires AllParse(entries)
    ensures forall x :: x in ParsedValues(entries) ==> IsInt32(x)
  {
    forall x | x in ParsedValues(entries)
      ensures IsInt32(x)
    {
      var k :| 0 <= k < |entries| && ParsedValues(entries)[k] == x;
      ParseInRange(entries[k]);
    }
  }

  /** 32-bit values written in decimal parse back to themselves. */
  lemma {:induction false} DecimalsParseBack(values: seq<int>)
    requires forall k :: 0 <= k < |values| ==> IsInt32(values[k])
    ensures AllParse(ToDecimals(values))
    ensures ParsedValues(ToDecimals(values)) == values
  {
    var r := ToDecimals(values);
    forall k | 0 <= k < |r|
      ensures ParseInt(r[k]) == Ok(values[k])
    {
      ParseOfDecimal(values[k]);
    }
  }

  /** An entry that fails to parse turns the whole list into that entry's error message. */
  lemma {:induction false} RankedScoresError(entries: seq<string>)
    requires !AllParse(entries)
    ensures exists k :: && 0 <= k < |entries| && ParseInt(entries[k]).Err?
                        && RankedScores(entries) == [ParseInt(entries[k]).error.Message()]
  {
    var k := FirstFailure(entries);
    assert ParseInt(entries[k]).Err?;
  }

  /** An empty response splits into one empty entry, which is a format error. */
  lemma EmptyResponseIsFormatError()
    ensures RankedScores(FormatScores("")) == ["Input string was not in a correct format."]
  {
    ParseEmptyFails();
    assert FormatScores("") == [""];
    assert !AllParse([""]);
  }

  /** A failed fetch's text begins with a letter, so the board shows a single format-error message. */
  lemma FailedFetchIsFormatError(message: string)
    ensures RankedScores(FormatScores(FetchFailureText(message))) == ["Input string was not in a correct format."]
  {
    var entries := FormatScores(FetchFailureText(message));
    var text := FetchFailureText(message);
    assert text[0] == 'E';
    assert entries[0] == Text.Split(text, ',')[0];
    FirstPieceStartsLikeText(text, ',');
    ParseRejectsNonNumericStart(entries[0]);
    assert !AllParse(entries);
    assert FirstFailure(entries) == 0;
  }

  /** The first piece of a split starts with the text's first character, when that is not the separator. */
  lemma {:induction false} FirstPieceStartsLikeText(s: string, c: char)
    requires |s| > 0 && s[0] != c
    ensures |Text.Split(s, c)[0]| > 0 && Text.Split(s, c)[0][0] == s[0]
  {
  }

  /**
   * The parse loop of `sortScoreArray`: `int.Parse` on each entry into the
   * array, up to the first entry that throws, whose message it returns.
   */
  method ParseEntries(entries: seq<string>, comp: array<int>) returns (ok: bool, message: string)
    requires comp.Length == |entries|
    modifies comp
    ensures ok <==> AllParse(entries)
    ensures ok ==> comp[..] == ParsedValues(entries)
    ensures !ok ==> message == ParseInt(entries[FirstFailure(entries)]).error.Message()
  {
    var i := 0;
    ghost var done: seq<int> := [];
    while i < |entries|
      invariant 0 <= i <= |entries| && |done| == i
      invariant forall k :: 0 <= k < i ==> comp[k] == done[k]
      invariant forall k {:trigger ParseInt(entries[k])} :: 0 <= k < i ==> ParseInt(entries[k]) == Ok(done[k])
    {
      var parsed := ParseInt(entries[i]);
      if parsed.Err? {
        FirstFailureAt(entries, i);
        return false, parsed.error.Message();
      }
      comp[i] := parsed.value;
      done := done + [parsed.value];
      i := i + 1;
    }
    ok, message := true, "";
    assert comp[..] == done;
    ParsedAll(entries, done);
  }

  /** Values that every entry parses to are the parsed values. */
  lemma ParsedAll(entries: seq<string>, values: seq<int>)
    requires |values| == |entries|
    requires forall k :: 0 <= k < |entries| ==> ParseInt(entries[k]) == Ok(values[k])
    ensures AllParse(entries) && ParsedValues(entries) == values
  {
  }

  /** `Array.ConvertAll(a, i => i.ToString())`. */
  method DecimalStrings(a: array<int>) returns (r: seq<string>)
    ensures r == ToDecimals(a[..])
  {
    r := [];
    var j := 0;
    while j < a.Length
      invariant 0 <= j <= a.Length
      invariant r == ToDecimals(a[..j])
    {
      assert a[..j + 1] == a[..j] + [a[j]];
      r := r + [ToDecimal(a[j])];
      j := j + 1;
    }
    assert a[..j] == a[..];
  }

  /** `Array.Sort` on an `int[]`: the array's contents become their ascending sort. */
  method SortAscending(a: array<int>)
    modifies a
    ensures a[..] == InsertionSort(old(a[..]), IntLe)
  {
    var sorted := InsertionSort(a[..], IntLe);
    IntLeIsTotalOrder();
    SortFacts(a[..], IntLe);
    var i := 0;
    while i < a.Length
      invariant 0 <= i <= a.Length
      invariant |sorted| == a.Length
      invariant a[..i] == sorted[..i]
      invariant sorted == InsertionSort(old(a[..]), IntLe)
    {
      a[i] := sorted[i];
      i := i + 1;
    }
    assert a[..] == a[..i];
  }

  /** `Array.Reverse` on an `int[]`: swaps from both ends towards the middle. */
  method ReverseInPlace(a: array<int>)
    modifies a
    ensures a[..] == Reverse(old(a[..]))
  {
    var i := 0;
    while i < a.Length / 2
      invariant 0 <= i <= a.Length / 2
      invariant forall k :: 0 <= k < i ==> a[k] == old(a[a.Length - 1 - k]) && a[a.Length - 1 - k] == old(a[k])
      invariant forall k :: i <= k < a.Length - i ==> a[k] == old(a[k])
    {
      var j := a.Length - 1 - i;
      a[i], a[j] := a[j], a[i];
      i := i + 1;
    }
  }

  class Leaderboard {
    const scoreStorage: RequestPacket
    var scoresArray: seq<string>
    var scoresArrayComp: array?<int>

    constructor ()
      ensures scoreStorage.url == ScoreStorageUrl && scoreStorage.data == None
      ensures scoresArray == [] && scoresArrayComp == null
    {
      scoreStorage := new RequestPacket(ScoreStorageUrl);
      scoresArray := [];
      scoresArrayComp := null;
    }

    /**
     * `sortScoreArray()`: parses each entry into a new `int[]` (kept in
     * `scoresArrayComp`), sorts it ascending, reverses it and converts each
     * value back to text. A parse exception is caught and its message
     * becomes the only entry.
     */
    method SortScoreArray() returns (sorted: seq<string>)
      modifies this
      ensures sorted == RankedScores(scoresArray)
      ensures scoresArray == old(scoresArray)
      ensures scoresArrayComp != null && fresh(scoresArrayComp) && scoresArrayComp.Length == |scoresArray|
      ensures AllParse(scoresArray) ==> scoresArrayComp[..] == Ranking(ParsedValues(scoresArray))
    {
      var comp := new int[|scoresArray|];
      scoresArrayComp := comp;
      var ok, message := ParseEntries(scoresArray, comp);
      if !ok {
        return [message];
      }
      SortAscending(comp);
      ReverseInPlace(comp);
      sorted := DecimalStrings(comp);
    }

    /**
     * `Start`: fetches `getAllScores`, splits the text into entries and
     * replaces them by their ranking; a fetch that throws past
     * `getRequest` ends `Start` with the list untouched.
     */
    method Start(response: RequestOutcome)
      modifies this
      ensures GetRequest(response).Ok? ==> scoresArray == RankedScores(FormatScores(GetRequest(response).value))
      ensures GetRequest(response).Err? ==> scoresArray == old(scoresArray)
      ensures response.HttpFailure? ==> scoresArray == ["Input string was not in a correct format."]
    {
      var fetched := GetRequest(response);
      if fetched.Err? {
        return;
      }
      var scoreData := fetched.value;
      scoresArray := FormatScores(scoreData);
      scoresArray := SortScoreArray();
      if response.HttpFailure? {
        FailedFetchIsFormatError(response.message);
      }
    }
  }
}
