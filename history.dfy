/**
 * The request record and the in-memory request history (`Requests` in the servant
 * generation, `RequestManager` in the serve generation: the same code).  `Add` appends;
 * `Find` returns the first record, in insertion order, with the given URL.  Records are
 * never changed after they are handed over, so a record value stands for the pointer.
 */
module History {
  import opened Base
  import opened GoText

  /** `time.Duration` as nanoseconds; its rendering is not modelled */
  datatype Duration = Duration(nanoseconds: int)

  /** `Request`: the body reference of the Go record is not modelled */
  datatype Request = Request(
    remoteAddress: string,
    url: string,
    verb: string,
    status: int,
    time: Duration,
    contentType: string,
    contentLength: uint64)

  /** The position of the first record with `url`, if any */
  function FirstIndex(rs: seq<Request>, url: string): (r: Option<nat>)
    ensures r.Some? ==> r.value < |rs| && rs[r.value].url == url
    ensures r.Some? ==> forall j :: 0 <= j < r.value ==> rs[j].url != url
    ensures r.None? <==> forall j :: 0 <= j < |rs| ==> rs[j].url != url
    decreases |rs|
  {
    if rs == [] then None
    else if rs[0].url == url then Some(0)
    else match FirstIndex(rs[1..], url)
      case None => None
      case Some(i) => Some(i + 1)
  }

  /** The record `Find` returns: the first match, or nil */
  function FirstMatch(rs: seq<Request>, url: string): (m: Option<Request>)
    ensures m.None? <==> forall j :: 0 <= j < |rs| ==> rs[j].url != url
    ensures m.Some? ==> m.value.url == url
    ensures m.Some? ==> exists i :: 0 <= i < |rs| && rs[i] == m.value && (forall j :: 0 <= j < i ==> rs[j].url != url)
  {
    match FirstIndex(rs, url)
    case None => None
    case Some(i) => if i < |rs| then Some(rs[i]) else None
  }

  /** Once a URL has a match, appending more records (of that URL or any) keeps the first one */
  lemma AddKeepsFirstMatch(rs: seq<Request>, r: Request, url: string)
    requires FirstIndex(rs, url).Some?
    ensures FirstIndex(rs + [r], url) == FirstIndex(rs, url)
    ensures FirstMatch(rs + [r], url) == FirstMatch(rs, url)
  {
    var i := FirstIndex(rs, url).value;
    assert (rs + [r])[i] == rs[i];
  }

  /** The first record of a URL not yet seen becomes its match */
  lemma AddFirstOfUrl(rs: seq<Request>, r: Request)
    requires FirstIndex(rs, r.url).None?
    ensures FirstIndex(rs + [r], r.url) == Some(|rs|)
    ensures FirstMatch(rs + [r], r.url) == Some(r)
  {
    var grown := rs + [r];
    assert grown[|rs|] == r;
    assert forall j :: 0 <= j < |rs| ==> grown[j] == rs[j];
    assert forall j :: 0 <= j < |rs| ==> grown[j].url != r.url;
    assert FirstIndex(grown, r.url).Some?;
    assert FirstIndex(grown, r.url).value == |rs|;
  }

  /** Appending leaves the match of every other URL alone */
  lemma AddOtherUrl(rs: seq<Request>, r: Request, url: string)
    requires r.url != url
    ensures FirstMatch(rs + [r], url) == FirstMatch(rs, url)
  {
    if FirstIndex(rs, url).Some? {
      AddKeepsFirstMatch(rs, r, url);
    }
  }

  class Requests {
    var requests: seq<Request>

    /** `NewRequestManager`: an empty history */
    constructor ()
      ensures requests == []
    {
      requests := [];
    }

    /** `Add`: the record goes at the end; earlier records stay as they were */
    method Add(request: Request)
      modifies this
      ensures requests == old(requests) + [request]
      ensures |requests| == |old(requests)| + 1
      ensures forall i :: 0 <= i < |old(requests)| ==> requests[i] == old(requests)[i]
    {
      requests := requests + [request];
    }

    /** `Find`: the earliest record whose URL is `url`; none exactly when no record has it */
    method Find(url: string) returns (found: Option<Request>)
      ensures found == FirstMatch(requests, url)
      ensures found.None? <==> forall j :: 0 <= j < |requests| ==> requests[j].url != url
      ensures found.Some? ==> found.value.url == url && exists i :: (0 <= i < |requests| &&
        requests[i] == found.value && forall j :: 0 <= j < i ==> requests[j].url != url)
    {
      for i := 0 to |requests|
        invariant forall j :: 0 <= j < i ==> requests[j].url != url
      {
        if requests[i].url == url {
          return Some(requests[i]);
        }
      }
      return None;
    }
  }
}
