/**
 * The inline-query result stream: queued elements become inline results,
 * a page is drained from the query's queue up to the `None` sentinel or the
 * first empty wait, and the paging offset `"<firstQueryId>-<counter>"` ties
 * later pages to the first query's queue.
 */
module InlineQuery {
  import opened Wrappers
  import opened Text

  datatype ElementType = Photo | Animation

  /** One produced artifact, as queued by the producers. */
  datatype QueueElement = QueueElement(
    kind: ElementType, id: string, url: string, thumbUrl: string,
    height: int, width: int, text: string, title: string)

  /** The two inline result kinds the bot answers with. */
  datatype InlineResult =
    | PhotoResult(id: string, url: string, thumbUrl: string, height: int, width: int,
                  description: string, caption: string, title: string)
    | Mpeg4GifResult(id: string, url: string, thumbUrl: string, height: int, width: int,
                     description: string, caption: string, title: string)

  /**
   * `queueElementToResult`: a photo element becomes a photo result, any
   * other an MPEG4-GIF result; id, urls, size and title are copied and the
   * text becomes both description and caption.
   */
  function ToResult(e: QueueElement): (r: InlineResult)
    ensures r.PhotoResult? <==> e.kind == Photo
    ensures r.description == r.caption
  {
    if e.kind == Photo then
      PhotoResult(e.id, e.url, e.thumbUrl, e.height, e.width, e.text, e.text, e.title)
    else
      Mpeg4GifResult(e.id, e.url, e.thumbUrl, e.height, e.width, e.text, e.text, e.title)
  }

  /** Reads back the element a result was made from. */
  function ToElement(r: InlineResult): QueueElement
  {
    QueueElement(if r.PhotoResult? then Photo else Animation,
                 r.id, r.url, r.thumbUrl, r.height, r.width, r.caption, r.title)
  }

  /** The mapping loses nothing: every field of the element can be read back from its result. */
  lemma ToResultInvertible(e: QueueElement)
    ensures ToElement(ToResult(e)) == e
  {
  }

  function Results(es: seq<QueueElement>): (rs: seq<InlineResult>)
    ensures |rs| == |es| && forall i :: 0 <= i < |es| ==> rs[i] == ToResult(es[i])
  {
    seq(|es|, i requires 0 <= i < |es| => ToResult(es[i]))
  }

  /**
   * The elements a drain returns from a queue snapshot: those before the
   * first `None`, in arrival order.
   */
  function Pending(q: seq<Option<QueueElement>>): (r: seq<QueueElement>)
    ensures |r| <= |q|
  {
    if q == [] || q[0].None? then [] else [q[0].value] + Pending(q[1..])
  }

  /**
   * The drained elements are the snapshot's leading entries, unwrapped,
   * and the entry right after them, if any, is the `None` sentinel: the
   * sentinel is never returned.
   */
  lemma {:induction false} PendingIsPrefix(q: seq<Option<QueueElement>>)
    ensures forall i :: 0 <= i < |Pending(q)| ==> q[i] == Some(Pending(q)[i])
    ensures |Pending(q)| < |q| ==> q[|Pending(q)|] == None
  {
    if q != [] && q[0].Some? {
      PendingIsPrefix(q[1..]);
    }
  }

  /** How many queue entries a drain takes: the returned elements plus the sentinel, if reached. */
  function Consumed(q: seq<Option<QueueElement>>): (n: nat)
    ensures |Pending(q)| <= n <= |q|
  {
    if |Pending(q)| < |q| then |Pending(q)| + 1 else |Pending(q)|
  }

  /**
   * Draining in two steps, where the first stopped on an empty wait rather
   * than on the sentinel, returns the same elements in the same order as
   * one drain of everything would.
   */
  lemma {:induction false} PagesContinue(q1: seq<Option<QueueElement>>, q2: seq<Option<QueueElement>>)
    requires forall k :: 0 <= k < |q1| ==> q1[k].Some?
    ensures Pending(q1 + q2) == Pending(q1) + Pending(q2)
  {
    if q1 == [] {
      assert q1 + q2 == q2;
    } else {
      PagesContinue(q1[1..], q2);
      PendingCons(q1[0], q1[1..] + q2);
      PendingCons(q1[0], q1[1..]);
      assert [q1[0]] + (q1[1..] + q2) == q1 + q2;
      assert [q1[0]] + q1[1..] == q1;
    }
  }

  lemma PendingCons(x: Option<QueueElement>, rest: seq<Option<QueueElement>>)
    requires x.Some?
    ensures Pending([x] + rest) == [x.value] + Pending(rest)
  {
    assert ([x] + rest)[1..] == rest;
  }

  /**
   * The drain loop, after the blocking first `get()` has returned an
   * entry: append results while entries keep coming; stop at `None` (which
   * is consumed) or when a 0.5 s wait finds the snapshot exhausted.
   */
  method Drain(q: seq<Option<QueueElement>>) returns (answers: seq<InlineResult>, consumed: nat)
    requires q != []
    ensures answers == Results(Pending(q))
    ensures consumed == Consumed(q)
  {
    answers := [];
    var next := q[0];
    consumed := 1;
    while next.Some?
      invariant 1 <= consumed <= |q| && |answers| <= consumed
      invariant forall k :: 0 <= k < |answers| ==> q[k].Some? && answers[k] == ToResult(q[k].value)
      invariant next.Some? ==> next == q[consumed - 1] && |answers| == consumed - 1
      invariant next.None? ==> (|answers| == consumed - 1 && q[consumed - 1].None?) || |answers| == consumed == |q|
      decreases |q| - consumed, next.Some?
    {
      answers := answers + [ToResult(next.value)];
      if consumed < |q| {
        next := q[consumed];
        consumed := consumed + 1;
      } else {
        next := None;
      }
    }
    var p := Pending(q);
    PendingIsPrefix(q);
    if |answers| == consumed - 1 && q[consumed - 1].None? {
      assert |p| == consumed - 1;
    } else {
      assert |p| == |q|;
    }
  }

  /** Splitting an offset: exactly one `'-'` is required, otherwise unpacking raises ValueError. */
  function SplitOffset(offset: string): (r: Result<(string, string), string>)
    ensures r.Ok? ==> Split(offset, '-') == [r.value.0, r.value.1]
    ensures r.Err? <==> |Split(offset, '-')| != 2
  {
    var parts := Split(offset, '-');
    if |parts| == 2 then Ok((parts[0], parts[1])) else Err("ValueError")
  }

  /** The next offset: the first query's id, a dash, and the counter plus one. */
  function FormatOffset(firstQueryId: string, counter: nat): string
  {
    firstQueryId + "-" + NatToString(counter + 1)
  }

  /**
   * An offset the bot issued reads back as the first query's id and the
   * incremented counter, provided the id itself holds no `'-'`.
   */
  lemma OffsetRoundTrip(firstQueryId: string, counter: nat)
    requires '-' !in firstQueryId
    ensures SplitOffset(FormatOffset(firstQueryId, counter)) == Ok((firstQueryId, NatToString(counter + 1)))
    ensures ParseNat(SplitOffset(FormatOffset(firstQueryId, counter)).value.1) == Some(counter + 1)
  {
    var digits := NatToString(counter + 1);
    assert forall i :: 0 <= i < |digits| ==> digits[i] != '-';
    assert '-' !in digits;
    assert FormatOffset(firstQueryId, counter) == firstQueryId + ['-'] + digits;
    SplitAtFirst(firstQueryId, '-', digits);
    SplitNoSep(digits, '-');
    ParseNatToString(counter + 1);
  }

  /** What one inline-query update leads to. */
  datatype PageOutcome =
    | Answered(results: seq<InlineResult>, nextOffset: string)
    | Waiting        // the first `get()` blocks: nothing has been queued yet
    | Failed(error: string)

  /** The registry of per-query queues (`inlineQueues`). */
  class InlineQueues {
    /** Each registered query's queue: the entries still waiting to be drained. */
    var queues: map<string, seq<Option<QueueElement>>>

    constructor ()
      ensures queues == map[]
    {
      queues := map[];
    }

    /** A producer's `put`: the entry joins the end of the query's queue. */
    method Put(id: string, e: Option<QueueElement>)
      modifies this
      ensures queues == if id in old(queues) then old(queues)[id := old(queues)[id] + [e]] else old(queues)
    {
      if id in queues {
        queues := queues[id := queues[id] + [e]];
      }
    }

    /** `del self.inlineQueues[queryId]` once the producers have finished. */
    method Delete(id: string)
      modifies this
      ensures queues == old(queues) - {id}
    {
      queues := queues - {id};
    }

    /**
     * `handleInlineQuery`. An empty offset registers a fresh queue for this
     * query; otherwise the offset names the first query. `arrivals` are the
     * entries the producers put on that queue while the request runs. The
     * page is the drained results; the next offset carries the counter plus
     * one. A malformed offset fails before draining; a counter that is not
     * a number fails after draining, so that page's entries are consumed
     * but never answered.
     */
    method HandleInlineQuery(queryId: string, offset: string, arrivals: seq<Option<QueueElement>>)
      returns (outcome: PageOutcome)
      modifies this
      ensures offset != "" && SplitOffset(offset).Err? ==>
                outcome == Failed("ValueError") && queues == old(queues)
      ensures (offset == "" || SplitOffset(offset).Ok?) ==>
                var firstId := if offset == "" then queryId else SplitOffset(offset).value.0;
                var counter := if offset == "" then "0" else SplitOffset(offset).value.1;
                var before := if offset == "" then old(queues)[queryId := []] else old(queues);
                if firstId !in before then
                  && queues == before
                  && outcome == (if ParseNat(counter).Some? then Answered([], FormatOffset(firstId, ParseNat(counter).value))
                                 else Failed("ValueError"))
                else
                  var q := before[firstId] + arrivals;
                  if q == [] then
                    outcome == Waiting && queues == before
                  else
                    && queues == before[firstId := q[Consumed(q)..]]
                    && outcome == (if ParseNat(counter).Some?
                                   then Answered(Results(Pending(q)), FormatOffset(firstId, ParseNat(counter).value))
                                   else Failed("ValueError"))
    {
      var firstId: string;
      var counter: string;
      if offset == "" {
        firstId, counter := queryId, "0";
        queues := queues[queryId := []];
      } else {
        var split := SplitOffset(offset);
        if split.Err? {
          return Failed("ValueError");
        }
        firstId, counter := split.value.0, split.value.1;
      }
      var answers: seq<InlineResult> := [];
      if firstId in queues {
        var q := queues[firstId] + arrivals;
        if q == [] {
          return Waiting;
        }
        var consumed;
        answers, consumed := Drain(q);
        queues := queues[firstId := q[consumed..]];
      }
      var c := ParseNat(counter);
      if c.None? {
        return Failed("ValueError");
      }
      return Answered(answers, FormatOffset(firstId, c.value));
    }
  }

  /** The first page's offset is the query's own id with counter 1. */
  lemma FirstOffset(queryId: string)
    ensures ParseNat("0") == Some(0)
    ensures FormatOffset(queryId, 0) == queryId + "-1"
  {
  }
}
