/**
 * The ASP.NET score server (`Backend/ZombtoyBackend/Program.cs`): `POST
 * /addScore` stores the posted score as a row, `GET /getAllScores` returns
 * every stored score, in row-id order, joined with commas.
 */
module Backend {
  import opened Common
  import Text
  import Decimal
  import Leaderboard

  /** The characters `char.IsWhiteSpace` accepts, which `string.Trim()` removes. */
  const DotNetWhite: set<char> := {
    '\t', '\n', '\U{000B}', '\U{000C}', '\r', ' ', '\U{0085}', '\U{00A0}', '\U{1680}',
    '\U{2000}', '\U{2001}', '\U{2002}', '\U{2003}', '\U{2004}', '\U{2005}', '\U{2006}',
    '\U{2007}', '\U{2008}', '\U{2009}', '\U{200A}', '\U{2028}', '\U{2029}', '\U{202F}',
    '\U{205F}', '\U{3000}'}

  /** `string.IsNullOrWhiteSpace`. */
  predicate IsBlank(s: string)
  {
    forall k :: 0 <= k < |s| ==> s[k] in DotNetWhite
  }

  /** What the endpoints reply. */
  datatype Reply =
    | TextReply(body: string)                               // 200, `Results.Text`
    | BadRequest(message: string)                           // 400
    | Problem(status: int, title: string, detail: string)   // `Results.Problem`

  /**
   * What `JsonSerializer.Deserialize<ScoreJson>` does with a body: it
   * throws, or yields an object whose `score` may be absent or null.
   */
  datatype Deserialized = Malformed | ScoreObject(score: Option<string>)

  /**
   * The score `POST /addScore` would store for `body`, or the message of
   * its 400 reply. A body that starts with `{` is read as JSON, whose
   * deserialization is `parsed`; any other body is the score itself.
   */
  function ExtractScore(body: string, parsed: Deserialized): Result<string, string>
  {
    var trimmed := Text.Trim(body, DotNetWhite);
    if trimmed == "" then Err("empty body")
    else
      var score :=
        if trimmed[0] == '{' then
          match parsed
          case Malformed => Err("invalid JSON")
          case ScoreObject(s) => Ok(if s.Some? then Text.Trim(s.value, DotNetWhite) else "")
        else Ok(trimmed);
      if score.Err? then score
      else if IsBlank(score.value) then Err("missing score")
      else score
  }

  /**
   * The four outcomes of `POST /addScore`'s body handling: a blank body is
   * "empty body"; a body that does not start with `{` is stored trimmed; a
   * JSON body the reader rejects is "invalid JSON", and one without a
   * non-blank score is "missing score"; whatever is stored is non-empty
   * and already trimmed.
   */
  lemma {:induction false} ExtractScoreFacts(body: string, parsed: Deserialized)
    ensures var r := ExtractScore(body, parsed);
      var t := Text.Trim(body, DotNetWhite);
      && (r == Err("empty body") <==> IsBlank(body))
      && (r.Ok? ==> r.value != "" && Text.Trim(r.value, DotNetWhite) == r.value)
      && (!IsBlank(body) && t[0] != '{' ==> r == Ok(t))
      && (!IsBlank(body) && t[0] == '{' ==> (r == Err("invalid JSON") <==> parsed.Malformed?))
      && (r == Err("missing score") <==>
            !IsBlank(body) && t[0] == '{' && parsed.ScoreObject? &&
            (parsed.score.None? || IsBlank(parsed.score.value)))
  {
    Text.TrimFacts(body, DotNetWhite);
    var t := Text.Trim(body, DotNetWhite);
    if t != "" {
      if t[0] == '{' {
        if parsed.ScoreObject? && parsed.score.Some? {
          var v := Text.Trim(parsed.score.value, DotNetWhite);
          Text.TrimFacts(parsed.score.value, DotNetWhite);
          if v != "" {
            TrimmedIsFixed(v);
          }
        }
      } else {
        assert !IsBlank(t);
        TrimmedIsFixed(t);
      }
    }
  }

  /** A non-blank trimmed string is its own trim. */
  lemma TrimmedIsFixed(s: string)
    requires s == "" || (s[0] !in DotNetWhite && s[|s| - 1] !in DotNetWhite)
    ensures Text.Trim(s, DotNetWhite) == s
  {
    Text.TrimIdentity(s, DotNetWhite);
  }

  /**
   * What the game posts, `n.ToString()`, is stored verbatim, whatever the
   * JSON reader would have made of it.
   */
  lemma {:induction false} PostedDecimalStoredVerbatim(n: int, parsed: Deserialized)
    ensures ExtractScore(Decimal.ToDecimal(n), parsed) == Ok(Decimal.ToDecimal(n))
  {
    var s := Decimal.ToDecimal(n);
    Decimal.DecimalShape(n);
    assert s[0] !in DotNetWhite && s[|s| - 1] !in DotNetWhite;
    TrimmedIsFixed(s);
    assert !IsBlank(s);
  }

  /** A stored score. */
  datatype ScoreRow = ScoreRow(id: nat, score: string)

  /** The scores of the rows, in row order. */
  function Scores(rows: seq<ScoreRow>): (r: seq<string>)
    ensures |r| == |rows|
    ensures forall k :: 0 <= k < |rows| ==> r[k] == rows[k].score
  {
    seq(|rows|, k requires 0 <= k < |rows| => rows[k].score)
  }

  /** The server and its `Scores` table. */
  class ScoreServer {
    var rows: seq<ScoreRow>
    /** The id the database gives the next row. */
    var nextId: nat

    /** Rows are kept in increasing id order, every id below `nextId`. */
    ghost predicate Valid()
      reads this
    {
      && (forall i, j :: 0 <= i < j < |rows| ==> rows[i].id < rows[j].id)
      && (forall i :: 0 <= i < |rows| ==> rows[i].id < nextId)
    }

    /** `EnsureCreated` on an empty database. */
    constructor ()
      ensures Valid() && rows == []
    {
      rows := [];
      nextId := 1;
    }

    /**
     * `POST /addScore`: a 400 for a body without a score, a 422 when the
     * database refuses the row (`storeError`), otherwise the row is added
     * and acknowledged.
     */
    method AddScore(body: string, parsed: Deserialized, storeError: Option<string>) returns (reply: Reply)
      requires Valid()
      modifies this
      ensures Valid()
      ensures ExtractScore(body, parsed).Err? ==>
        reply == BadRequest(ExtractScore(body, parsed).error) && rows == old(rows)
      ensures ExtractScore(body, parsed).Ok? && storeError.Some? ==>
        reply == Problem(422, "failed to store score", storeError.value) && rows == old(rows)
      ensures ExtractScore(body, parsed).Ok? && storeError.None? ==>
        && reply == TextReply("score received and stored: " + ExtractScore(body, parsed).value)
        && rows == old(rows) + [ScoreRow(old(nextId), ExtractScore(body, parsed).value)]
        && Scores(rows) == Scores(old(rows)) + [ExtractScore(body, parsed).value]
    {
      var score := ExtractScore(body, parsed);
      if score.Err? {
        return BadRequest(score.error);
      }
      if storeError.Some? {
        return Problem(422, "failed to store score", storeError.value);
      }
      rows := rows + [ScoreRow(nextId, score.value)];
      nextId := nextId + 1;
      reply := TextReply("score received and stored: " + score.value);
    }

    /**
     * `GET /getAllScores`: the scores in id order joined with commas; an
     * empty text when the query fails.
     */
    method GetAllScores(queryFails: bool) returns (reply: Reply)
      requires Valid()
      ensures queryFails ==> reply == TextReply("")
      ensures !queryFails ==> reply == TextReply(Text.Join(Scores(rows), ","))
    {
      if queryFails {
        return TextReply("");
      }
      reply := TextReply(Text.Join(Scores(rows), ","));
    }
  }

  /**
   * End to end: when every stored score is a 32-bit value the game posted,
   * the leaderboard's reading of the score list recovers those values in
   * storage order.
   */
  lemma {:induction false} LeaderboardReadsStoredRows(rows: seq<ScoreRow>, values: seq<int>)
    requires |rows| == |values| >= 1
    requires forall k :: 0 <= k < |values| ==> IsInt32(values[k])
    requires forall k :: 0 <= k < |rows| ==> rows[k].score == Decimal.ToDecimal(values[k])
    ensures Leaderboard.FormatScores(Text.Join(Scores(rows), ",")) == Leaderboard.ToDecimals(values)
    ensures Leaderboard.AllParse(Leaderboard.ToDecimals(values))
    ensures Leaderboard.ParsedValues(Leaderboard.ToDecimals(values)) == values
  {
    assert Scores(rows) == Leaderboard.ToDecimals(values);
    Leaderboard.ReadsPostedScores(values);
  }
}
