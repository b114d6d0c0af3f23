/** RestJRPeriodAction: the REST endpoint that changes the period of indexers of a river. It turns
    the path parameters into a JRPeriodRequest and turns the answer of the node running the river
    into an OK or NOT_FOUND reply. */
module RestPeriodAction {
  import opened Wrappers
  import opened JavaNumbers
  import opened Settings
  import opened Utils
  import opened PeriodRequests
  import opened NodeResponses

  /** Position of the first comma of s, |s| when there is none. */
  function CommaIndex(s: string): (i: nat)
    ensures i <= |s|
    ensures forall j :: 0 <= j < i ==> s[j] != ','
    ensures i < |s| ==> s[i] == ','
  {
    if |s| == 0 || s[0] == ',' then 0 else 1 + CommaIndex(s[1..])
  }

  /** Strings.splitStringByCommaToArray: the pieces between commas, in order, without trimming;
      empty pieces are dropped. */
  function SplitByComma(s: string): seq<string>
    decreases |s|
  {
    if |s| == 0 then []
    else
      var i := CommaIndex(s);
      (if i == 0 then [] else [s[..i]]) + (if i == |s| then [] else SplitByComma(s[i + 1..]))
  }

  /** A piece of a comma-separated list: not empty, without a comma. */
  predicate IsPiece(p: string)
  {
    |p| > 0 && forall j :: 0 <= j < |p| ==> p[j] != ','
  }

  /** Every piece the split yields is non-empty and free of commas. */
  lemma {:induction false} SplitPieces(s: string)
    ensures forall k :: 0 <= k < |SplitByComma(s)| ==> IsPiece(SplitByComma(s)[k])
    decreases |s|
  {
    if |s| > 0 {
      var i := CommaIndex(s);
      if i < |s| {
        SplitPieces(s[i + 1..]);
      }
    }
  }

  /** The pieces joined with commas. */
  function Join(pieces: seq<string>): string
  {
    if |pieces| == 0 then ""
    else if |pieces| == 1 then pieces[0]
    else pieces[0] + "," + Join(pieces[1..])
  }

  /** Splitting comma-joined pieces gives the pieces back. */
  lemma {:induction false} SplitJoin(pieces: seq<string>)
    requires forall k :: 0 <= k < |pieces| ==> IsPiece(pieces[k])
    ensures SplitByComma(Join(pieces)) == pieces
  {
    if |pieces| == 1 {
      var p := pieces[0];
      assert CommaIndex(p) == |p|;
      assert p[..|p|] == p;
    } else if |pieces| > 1 {
      var p, s := pieces[0], Join(pieces);
      assert s == p + "," + Join(pieces[1..]);
      assert s[|p|] == ',';
      assert CommaIndex(s) == |p| by {
        if CommaIndex(s) < |p| {
          assert s[CommaIndex(s)] == p[CommaIndex(s)];
        }
      }
      assert s[..|p|] == p;
      assert s[|p| + 1..] == Join(pieces[1..]);
      SplitJoin(pieces[1..]);
      assert [p] + pieces[1..] == pieces;
    }
  }

  /** splitIndexerNames: no names for a null or blank parameter, otherwise its comma-separated
      pieces. */
  function SplitIndexerNames(namesParam: Option<string>): (r: seq<string>)
    ensures IsEmpty(namesParam) ==> r == []
    ensures forall k :: 0 <= k < |r| ==> IsPiece(r[k])
  {
    if IsEmpty(namesParam) then []
    else
      SplitPieces(namesParam.value);
      SplitByComma(namesParam.value)
  }

  /** A non-blank list of indexer names, joined with commas, is split back into the same names. */
  lemma SplitIndexerNamesRoundTrip(names: seq<string>)
    requires forall k :: 0 <= k < |names| ==> IsPiece(names[k])
    requires !IsBlank(Join(names))
    ensures SplitIndexerNames(Some(Join(names))) == names
  {
    SplitJoin(names);
  }

  /** The path parameters seen as the Map<String, Object> that Utils.parseTimeValue reads hold the
      same keys. */
  lemma ParamsContainKey(params: seq<Param>, key: string)
    ensures ContainsKey(ParamsAsEntries(params), key) <==> HasParam(params, key)
  {
    var entries := ParamsAsEntries(params);
    if HasParam(params, key) {
      var i :| 0 <= i < |params| && params[i].name == key;
      assert entries[i].key == key;
    }
    if ContainsKey(entries, key) {
      var i :| 0 <= i < |entries| && entries[i].key == key;
      assert params[i].name == key;
    }
  }

  /** The path parameters seen as that Map<String, Object> hold the same value under each key. */
  lemma {:induction false} ParamsGet(params: seq<Param>, key: string)
    requires HasParam(params, key)
    ensures Get(ParamsAsEntries(params), key) == Str(ParamValue(params, key).value)
  {
    if params[0].name != key {
      var entries := ParamsAsEntries(params);
      assert entries[1..] == ParamsAsEntries(params[1..]);
      var i :| 0 <= i < |params| && params[i].name == key;
      assert params[1..][i - 1].name == key;
      ParamsGet(params[1..], key);
    }
  }

  /** The request handleRequest sends: the riverName path parameter, the indexerName parameter split
      at commas, and the period parameter as a time value in milliseconds, one minute when absent.
      A period that does not parse, then a missing river name, fail the request. */
  function PeriodRequestOf(params: seq<Param>): (r: Result<RequestFields>)
  {
    match ParseTimeValue(Some(ParamsAsEntries(params)), "period", 1, Some(Minutes))
    case Err(e) => Err(e)
    case Ok(period) =>
      if ParamValue(params, "riverName").None? then Err(IllegalArgument("riverName"))
      else Ok(RequestFields(ParamValue(params, "riverName"), Some(SplitIndexerNames(ParamValue(params, "indexerName"))), period))
  }

  /** What PeriodRequestOf builds, and when it fails. */
  lemma PeriodRequestOfMeaning(params: seq<Param>)
    ensures var r := PeriodRequestOf(params);
      && (r.Ok? ==> r.value.riverName == ParamValue(params, "riverName")
                    && r.value.indexerNames == Some(SplitIndexerNames(ParamValue(params, "indexerName"))))
      && (!HasParam(params, "period") ==> (r.Ok? <==> HasParam(params, "riverName")) && (r.Ok? ==> r.value.period == 60000))
      && (HasParam(params, "period") ==>
            var period := ParseDuration(ParamValue(params, "period").value);
            (r.Ok? <==> period.Some? && HasParam(params, "riverName")) && (r.Ok? ==> r.value.period == period.value))
  {
    ParamsContainKey(params, "period");
    if HasParam(params, "period") {
      ParamsGet(params, "period");
    }
  }

  datatype RestStatus = OK | NOT_FOUND

  /** The status and the message text sent back on the REST channel. */
  datatype RestReply = RestReply(status: RestStatus, message: string)

  /** A String in a Java string concatenation: "null" for null. */
  function Text(s: Option<string>): string
  {
    if s.None? then "null" else s.value
  }

  /** handleRiverResponse: OK when the node running the river found at least one of the indexers,
      NOT_FOUND otherwise. */
  function HandleRiverResponse(nodeInfo: NodeResponseFields, period: int, indexerNames: Option<string>): (r: RestReply)
    ensures r.status == OK <==> nodeInfo.indexerFound
    ensures r.status == OK ==> r.message == "Period changed to " + Decimal(period) + "[ms] for at least one of defined indexers"
    ensures r.status == NOT_FOUND ==> r.message == "No any of defined indexers '" + Text(indexerNames) + "' found"
  {
    if nodeInfo.indexerFound then
      RestReply(OK, "Period changed to " + Decimal(period) + "[ms] for at least one of defined indexers")
    else
      RestReply(NOT_FOUND, "No any of defined indexers '" + Text(indexerNames) + "' found")
  }
}
