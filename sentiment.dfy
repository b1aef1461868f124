/**
  The analysis step of `/analyze`: reading the classifier's reply the way
  the handler does and mapping its raw label code to one of the three
  sentiment labels the service exposes.
 */
module Sentiment {
  import opened Wrappers
  import opened Json

  /** The three labels, sent and stored as the strings "Positive", "Negative" and "Neutral". */
  datatype Label = Positive | Negative | Neutral

  /**
    The label mapping, applied to `result[0].label` (possibly undefined):
    the code "LABEL_1" is Neutral, "LABEL_0" is Negative and anything else,
    an unknown code or a missing label included, is Positive.
   */
  function MapLabel(code: Option<Value>): (l: Label)
    ensures l == Neutral <==> code == Some(Str("LABEL_1"))
    ensures l == Negative <==> code == Some(Str("LABEL_0"))
    ensures l == Positive <==> code != Some(Str("LABEL_1")) && code != Some(Str("LABEL_0"))
  {
    if code == Some(Str("LABEL_1")) then Neutral
    else if code == Some(Str("LABEL_0")) then Negative
    else Positive
  }

  /** What the HTTP call to the inference API yields: a parsed body, or a thrown error. */
  datatype Upstream = Reply(data: Value) | RequestFailed

  /** The handler's reading of the reply: it throws (500), or it has a label and a score. */
  datatype Verdict = Malformed | Top(sentiment: Label, score: Option<Value>)

  /**
    `response.data[0][0]`, the top-scored entry, or `None` when reading it
    throws: the reply is not an array or its first element is falsy (the
    explicit check), or that element has no first element, or it is `null`
    (the TypeError of reading `.label` from `undefined` or `null`).
   */
  function TopEntry(u: Upstream): (e: Option<Value>)
    ensures e.Some? ==> e.value != Null
    ensures (u.RequestFailed? || !u.data.Arr? || u.data.items == [] || !Truthy(u.data.items[0])) ==> e.None?
    ensures (u.Reply? && u.data.Arr? && u.data.items != [] && u.data.items[0].Arr? && u.data.items[0].items != []
             && u.data.items[0].items[0] != Null) ==> e == Some(u.data.items[0].items[0])
  {
    if u.RequestFailed? || !u.data.Arr? then None
    else match First(u.data)
      case None => None
      case Some(result) =>
        if !Truthy(result) then None
        else match First(result)
          case None => None
          case Some(entry) => if entry == Null then None else Some(entry)
  }

  /** The label and confidence the handler derives from the reply. */
  function ReadReply(u: Upstream): (v: Verdict)
    ensures v.Malformed? <==> TopEntry(u).None?
    ensures v.Top? ==> v.sentiment == MapLabel(Member(TopEntry(u).value, "label"))
    ensures v.Top? ==> v.score == Member(TopEntry(u).value, "score")
  {
    match TopEntry(u)
    case None => Malformed
    case Some(entry) => Top(MapLabel(Member(entry, "label")), Member(entry, "score"))
  }

  /** The reply shape the inference API returns, `[[{label, score}, ...], ...]`. */
  function ScoredReply(code: string, score: Value, others: seq<Value>, rest: seq<Value>): Upstream
  {
    Reply(Arr([Arr([Obj(map["label" := Str(code), "score" := score])] + others)] + rest))
  }

  /**
    A well-formed reply is read as its first entry: the label is the
    mapping of that entry's code and the confidence is its score, unchanged.
   */
  lemma ReadScoredReply(code: string, score: Value, others: seq<Value>, rest: seq<Value>)
    ensures ReadReply(ScoredReply(code, score, others, rest)) == Top(MapLabel(Some(Str(code))), Some(score))
  {
  }

  /** Every label is reached by some raw code, so the mapping is onto the three labels. */
  lemma MapLabelOnto(l: Label)
    ensures exists code: string :: MapLabel(Some(Str(code))) == l
  {
    match l
    case Neutral => assert MapLabel(Some(Str("LABEL_1"))) == Neutral;
    case Negative => assert MapLabel(Some(Str("LABEL_0"))) == Negative;
    case Positive => assert MapLabel(Some(Str("LABEL_2"))) == Positive;
  }

  /**
    The only structural checks are on the reply and its first element: a
    first entry that is an object without `label` or `score` still reads as
    Positive with an undefined confidence, while an empty first element throws.
   */
  lemma EntryWithoutFields(rest: seq<Value>)
    ensures ReadReply(Reply(Arr([Arr([Obj(map[])])] + rest))) == Top(Positive, None)
    ensures ReadReply(Reply(Arr([Arr([])] + rest))) == Malformed
  {
  }
}
