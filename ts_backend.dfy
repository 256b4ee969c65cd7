/**
 * The Express score server (`zombtoy-backend/index.ts`): `POST /addScore`
 * appends the score, as `JSON.stringify({score})` and a comma, to
 * `scores.csv`; `GET /getAllScores` reads the file back as a JSON array and
 * replies with the scores joined by commas.
 */
module TsBackend {
  import opened Common
  import Text

  // ---------------------------------------------------------------------
  // JSON string escaping (`JSON.stringify`) and its reading (`JSON.parse`)
  // ---------------------------------------------------------------------

  const Backspace: char := '\U{0008}'
  const FormFeed: char := '\U{000C}'

  /** Lower-case hexadecimal digit, as `JSON.stringify` writes them. */
  function HexDigit(d: nat): (c: char)
    requires d < 16
    ensures HexValue(c) == Some(d)
  {
    "0123456789abcdef"[d]
  }

  /** The value of a hexadecimal digit of either case. */
  function HexValue(c: char): (r: Option<nat>)
    ensures r.Some? ==> r.value < 16
  {
    if '0' <= c <= '9' then Some(c as nat - '0' as nat)
    else if 'a' <= c <= 'f' then Some(c as nat - 'a' as nat + 10)
    else if 'A' <= c <= 'F' then Some(c as nat - 'A' as nat + 10)
    else None
  }

  /** How `JSON.stringify` writes one character of a string. */
  function EscapeChar(c: char): (r: string)
    ensures 1 <= |r|
    ensures r[0] != '"' && (r[0] as int >= 0x20)
  {
    if c == '"' then "\\\""
    else if c == '\\' then "\\\\"
    else if c == Backspace then "\\b"
    else if c == FormFeed then "\\f"
    else if c == '\n' then "\\n"
    else if c == '\r' then "\\r"
    else if c == '\t' then "\\t"
    else if (c as int) < 0x20 then "\\u00" + [HexDigit(c as nat / 16), HexDigit(c as nat % 16)]
    else [c]
  }

  /** The body of a JSON string literal for `s`. */
  function Escape(s: string): string
  {
    if |s| == 0 then "" else EscapeChar(s[0]) + Escape(s[1..])
  }

  /** The character an escape sequence (after its backslash) stands for, and how many characters it spans. */
  function EscapeSequence(t: string): (r: Option<(char, nat)>)
    ensures r.Some? ==> 1 <= r.value.1 <= |t|
  {
    if |t| == 0 then None
    else if t[0] == '"' then Some(('"', 1))
    else if t[0] == '\\' then Some(('\\', 1))
    else if t[0] == '/' then Some(('/', 1))
    else if t[0] == 'b' then Some((Backspace, 1))
    else if t[0] == 'f' then Some((FormFeed, 1))
    else if t[0] == 'n' then Some(('\n', 1))
    else if t[0] == 'r' then Some(('\r', 1))
    else if t[0] == 't' then Some(('\t', 1))
    else if t[0] == 'u' && |t| >= 5 then
      var h := [HexValue(t[1]), HexValue(t[2]), HexValue(t[3]), HexValue(t[4])];
      if h[0].Some? && h[1].Some? && h[2].Some? && h[3].Some? then
        var v := ((h[0].value * 16 + h[1].value) * 16 + h[2].value) * 16 + h[3].value;
        if 0xD800 <= v < 0xE000 then None else Some((v as char, 5))
      else None
    else None
  }

  /**
   * `JSON.parse` of a string literal's body, up to and including the
   * closing quote: the string and the text after it. `None` for a syntax
   * error, and also for a surrogate escape, which has no `char` here.
   */
  function ParseStringBody(t: string): (r: Option<(string, string)>)
    ensures r.Some? ==> |r.value.1| < |t|
    decreases |t|
  {
    if |t| == 0 then None
    else if t[0] == '"' then Some(("", t[1..]))
    else if t[0] == '\\' then
      match EscapeSequence(t[1..])
      case None => None
      case Some((c, n)) =>
        match ParseStringBody(t[1 + n..])
        case None => None
        case Some((v, rest)) => Some(([c] + v, rest))
    else if (t[0] as int) < 0x20 then None
    else
      match ParseStringBody(t[1..])
      case None => None
      case Some((v, rest)) => Some(([t[0]] + v, rest))
  }

  /** Reading back one escaped character continues with what follows it. */
  lemma {:induction false} EscapeCharReadsBack(c: char, u: string)
    ensures ParseStringBody(EscapeChar(c) + u) ==
      match ParseStringBody(u)
      case None => None
      case Some((v, rest)) => Some(([c] + v, rest))
  {
    var e := EscapeChar(c);
    var t := e + u;
    if |e| == 2 {
      ShortEscapeReadsBack(c, u);
    } else if |e| == 6 {
      UnicodeEscapeReadsBack(c, u);
    } else {
      assert t[1..] == u;
    }
  }

  /** A two-character escape (`\"`, `\\`, `\b`, `\f`, `\n`, `\r`, `\t`) reads back as its character. */
  lemma ShortEscapeReadsBack(c: char, u: string)
    requires |EscapeChar(c)| == 2
    ensures var t := EscapeChar(c) + u;
      t[0] == '\\' && EscapeSequence(t[1..]) == Some((c, 1)) && t[1 + 1..] == u
  {
    var t := EscapeChar(c) + u;
    assert t[1..][0] == EscapeChar(c)[1];
    assert t[1 + 1..] == u;
  }

  /** A `\u00XX` escape reads back as its character. */
  lemma UnicodeEscapeReadsBack(c: char, u: string)
    requires |EscapeChar(c)| == 6
    ensures var t := EscapeChar(c) + u;
      t[0] == '\\' && EscapeSequence(t[1..]) == Some((c, 5)) && t[1 + 5..] == u
  {
    var t := EscapeChar(c) + u;
    var hi := c as nat / 16;
    var lo := c as nat % 16;
    assert (c as int) < 0x20;
    assert t[1..][0] == 'u';
    assert t[1..][1] == HexDigit(0) && t[1..][2] == HexDigit(0);
    assert t[1..][3] == HexDigit(hi) && t[1..][4] == HexDigit(lo);
    assert ((0 * 16 + 0) * 16 + hi) * 16 + lo == c as nat;
    assert t[1 + 5..] == u;
  }

  /** `JSON.parse` reads back exactly what `JSON.stringify` wrote: the string and then the text after its closing quote. */
  lemma {:induction false} EscapeReadsBack(s: string, rest: string)
    ensures ParseStringBody(Escape(s) + "\"" + rest) == Some((s, rest))
    decreases |s|
  {
    if |s| == 0 {
      assert Escape(s) + "\"" + rest == "\"" + rest;
    } else {
      EscapeReadsBack(s[1..], rest);
      assert Escape(s) + "\"" + rest == EscapeChar(s[0]) + (Escape(s[1..]) + "\"" + rest);
      EscapeCharReadsBack(s[0], Escape(s[1..]) + "\"" + rest);
      assert [s[0]] + s[1..] == s;
    }
  }

  // ---------------------------------------------------------------------
  // The `scores.csv` records
  // ---------------------------------------------------------------------

  /** The text before the score in a record. */
  const RecordOpen: string := "{\"score\":\""

  /** `JSON.stringify(new ScoreJson(score))`. */
  function Stringify(score: string): string
  {
    RecordOpen + Escape(score) + "\"}"
  }

  /** One `{"score":"…"}` record: its score and the text after it. */
  function ParseRecord(t: string): (r: Option<(string, string)>)
    ensures r.Some? ==> |r.value.1| < |t|
  {
    if |t| >= |RecordOpen| && t[..|RecordOpen|] == RecordOpen then
      match ParseStringBody(t[|RecordOpen|..])
      case None => None
      case Some((v, rest)) => if |rest| >= 1 && rest[0] == '}' then Some((v, rest[1..])) else None
    else None
  }

  /** Records separated by commas, up to the closing bracket that ends the text. */
  function ParseElements(t: string): Option<seq<string>>
    decreases |t|
  {
    match ParseRecord(t)
    case None => None
    case Some((v, rest)) =>
      if rest == "]" then Some([v])
      else if |rest| >= 1 && rest[0] == ',' then
        match ParseElements(rest[1..])
        case None => None
        case Some(vs) => Some([v] + vs)
      else None
  }

  /**
   * `JSON.parse(text)` on an array of score records: their scores. `None`
   * covers syntax errors and any JSON other than such an array.
   */
  function ParseArray(t: string): Option<seq<string>>
  {
    if t == "[]" then Some([])
    else if |t| >= 1 && t[0] == '[' then ParseElements(t[1..])
    else None
  }

  /** `s.slice(0, -1)`: all but the last character; empty stays empty. */
  function DropLast(s: string): (r: string)
    ensures |s| > 0 ==> r == s[..|s| - 1]
    ensures |s| == 0 ==> r == ""
  {
    if |s| == 0 then "" else s[..|s| - 1]
  }

  /** Every piece followed by a comma, in order: what appending `piece + ","` repeatedly builds. */
  function Terminated(pieces: seq<string>): string
  {
    if |pieces| == 0 then ""
    else Terminated(pieces[..|pieces| - 1]) + pieces[|pieces| - 1] + ","
  }

  /** The records of the scores. */
  function Records(scores: seq<string>): (r: seq<string>)
    ensures |r| == |scores|
    ensures forall k :: 0 <= k < |r| ==> r[k] == Stringify(scores[k])
  {
    seq(|scores|, k requires 0 <= k < |scores| => Stringify(scores[k]))
  }

  /** `Join` grows at its end. */
  lemma {:induction false} JoinSnoc(parts: seq<string>, x: string)
    requires |parts| >= 1
    ensures Text.Join(parts + [x], ",") == Text.Join(parts, ",") + "," + x
    decreases |parts|
  {
    if |parts| == 1 {
      assert (parts + [x])[1..] == [x];
    } else {
      assert (parts + [x])[1..] == parts[1..] + [x];
      JoinSnoc(parts[1..], x);
    }
  }

  /** Dropping the final comma of the comma-terminated pieces gives the comma-joined pieces. */
  lemma {:induction false} DropLastTerminated(pieces: seq<string>)
    ensures DropLast(Terminated(pieces)) == Text.Join(pieces, ",")
    ensures |pieces| >= 1 ==> Terminated(pieces) == Text.Join(pieces, ",") + ","
    decreases |pieces|
  {
    if |pieces| >= 1 {
      var init := pieces[..|pieces| - 1];
      var x := pieces[|pieces| - 1];
      assert init + [x] == pieces;
      if |init| == 0 {
        assert Terminated(init) == "";
      } else {
        DropLastTerminated(init);
        JoinSnoc(init, x);
      }
      var t := Terminated(pieces);
      assert t == Text.Join(pieces, ",") + ",";
      assert t[..|t| - 1] == Text.Join(pieces, ",");
    }
  }

  /** A record reads back as its score, followed by whatever text comes after it. */
  lemma {:induction false} RecordReadsBack(score: string, u: string)
    ensures ParseRecord(Stringify(score) + u) == Some((score, u))
  {
    var t := Stringify(score) + u;
    assert t[..|RecordOpen|] == RecordOpen;
    assert t[|RecordOpen|..] == Escape(score) + "\"" + ("}" + u);
    EscapeReadsBack(score, "}" + u);
    assert ("}" + u)[1..] == u;
  }

  /** The comma-joined records of `scores`, closed by a bracket, parse to `scores`. */
  lemma {:induction false} ElementsReadBack(scores: seq<string>)
    requires |scores| >= 1
    ensures ParseElements(Text.Join(Records(scores), ",") + "]") == Some(scores)
    decreases |scores|
  {
    var recs := Records(scores);
    var s := scores[0];
    if |scores| == 1 {
      RecordReadsBack(s, "]");
      assert Text.Join(recs, ",") + "]" == Stringify(s) + "]";
      assert [s] == scores;
    } else {
      var tail := Text.Join(recs[1..], ",") + "]";
      assert Text.Join(recs, ",") + "]" == Stringify(s) + ("," + tail);
      RecordReadsBack(s, "," + tail);
      assert ("," + tail)[1..] == tail;
      assert Records(scores[1..]) == recs[1..];
      ElementsReadBack(scores[1..]);
      assert [s] + scores[1..] == scores;
    }
  }

  /**
   * What `getAllScores` parses, `[` + the file without its last character
   * + `]`, is exactly the list of appended scores.
   */
  lemma {:induction false} FileReadsBack(scores: seq<string>)
    ensures ParseArray("[" + DropLast(Terminated(Records(scores))) + "]") == Some(scores)
  {
    DropLastTerminated(Records(scores));
    if |scores| == 0 {
      assert Text.Join(Records(scores), ",") == "";
      assert "[" + "" + "]" == "[]";
    } else {
      var body := Text.Join(Records(scores), ",");
      JoinedRecordsNonEmpty(scores);
      BracketedArray(body);
      ElementsReadBack(scores);
    }
  }

  /** At least one record joins to a non-empty text. */
  lemma JoinedRecordsNonEmpty(scores: seq<string>)
    requires |scores| >= 1
    ensures Text.Join(Records(scores), ",") != ""
  {
    assert |Records(scores)[0]| > |RecordOpen|;
    JoinLength(Records(scores));
  }

  /** A bracketed non-empty body is parsed as the elements it holds. */
  lemma BracketedArray(body: string)
    requires body != ""
    ensures ParseArray("[" + body + "]") == ParseElements(body + "]")
  {
    var t := "[" + body + "]";
    assert |t| > 2;
    assert t[1..] == body + "]";
  }

  /** A joined list is at least as long as its first piece. */
  lemma {:induction false} JoinLength(parts: seq<string>)
    requires |parts| >= 1
    ensures |Text.Join(parts, ",")| >= |parts[0]|
  {
  }

  // ---------------------------------------------------------------------
  // The server
  // ---------------------------------------------------------------------

  /** A reply: its status and body. */
  datatype Reply = Reply(status: int, body: string)

  class ScoreServer {
    /** `scores.csv`, absent until the first append. */
    var scoresFile: Option<string>
    /** The scores appended so far. */
    ghost var stored: seq<string>

    /** The file holds every stored score, as a record followed by a comma. */
    ghost predicate Valid()
      reads this
    {
      && (scoresFile.None? ==> stored == [])
      && (scoresFile.Some? ==> scoresFile.value == Terminated(Records(stored)))
    }

    constructor ()
      ensures Valid() && stored == [] && scoresFile.None?
    {
      scoresFile := None;
      stored := [];
    }

    /**
     * `POST /addScore`: appends the score's record and a comma, then
     * replies 200; a failed append (`writeFails`) replies 422 and leaves
     * the file as it was.
     */
    method AddScore(score: string, writeFails: bool) returns (reply: Reply)
      requires Valid()
      modifies this
      ensures Valid()
      ensures writeFails ==>
        reply == Reply(422, "partial failure: failed to store score") && stored == old(stored) && scoresFile == old(scoresFile)
      ensures !writeFails ==>
        && reply == Reply(200, "score received and stored: " + score)
        && stored == old(stored) + [score]
        && scoresFile == Some(old(scoresFile).GetOr("") + Stringify(score) + ",")
    {
      if writeFails {
        return Reply(422, "partial failure: failed to store score");
      }
      var previous := scoresFile.GetOr("");
      scoresFile := Some(previous + Stringify(score) + ",");
      stored := stored + [score];
      assert Records(stored)[..|stored| - 1] == Records(old(stored));
      reply := Reply(200, "score received and stored: " + score);
    }

    /**
     * `GET /getAllScores`: no reply when the file cannot be read (it does
     * not exist yet, or `readFails`); otherwise the stored scores joined
     * by commas, in the order they were appended.
     */
    method GetAllScores(readFails: bool) returns (reply: Option<Reply>)
      requires Valid()
      ensures readFails || scoresFile.None? ==> reply.None?
      ensures !readFails && scoresFile.Some? ==> reply == Some(Reply(200, Text.Join(stored, ",")))
    {
      if readFails || scoresFile.None? {
        return None;
      }
      var data := scoresFile.value;
      var scoreArray := "[" + DropLast(data) + "]";
      FileReadsBack(stored);
      var parsedScoreArray := ParseArray(scoreArray).value;
      var scores := "";
      var i := 0;
      while i < |parsedScoreArray|
        invariant 0 <= i <= |parsedScoreArray|
        invariant scores == Terminated(parsedScoreArray[..i])
      {
        assert parsedScoreArray[..i + 1][..i] == parsedScoreArray[..i];
        scores := scores + parsedScoreArray[i] + ",";
        i := i + 1;
      }
      assert parsedScoreArray[..i] == stored;
      DropLastTerminated(stored);
      reply := Some(Reply(200, DropLast(scores)));
    }
  }
}
