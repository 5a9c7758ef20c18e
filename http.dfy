/**
 * The part of Go's `net/http` the core touches: the header map of a response
 * (`http.Header` is `map[string][]string`) and a response writer whose header map,
 * status line and body the handlers change.  Header keys are taken as already
 * canonical: every key the core uses is written in canonical form.
 */
module Http {
  import opened Base

  type Header = map<string, seq<string>>

  /** The values stored under `key`, in order (none when the key is absent) */
  function Values(h: Header, key: string): seq<string> {
    if key in h then h[key] else []
  }

  /** `Header.Get`: the first value under `key`, or "" */
  function Get(h: Header, key: string): string {
    var vs := Values(h, key);
    if vs == [] then "" else vs[0]
  }

  /** `Header.Set`: `key` now holds exactly `value` */
  function Set(h: Header, key: string, value: string): Header {
    h[key := [value]]
  }

  /** `Header.Add`: `value` goes after the values already under `key` */
  function Add(h: Header, key: string, value: string): Header {
    h[key := Values(h, key) + [value]]
  }

  /**
   * An `http.ResponseWriter` as the handlers see it.  `status` is the status line once
   * `WriteHeader` has happened (only the first call counts; a `Write` before any
   * `WriteHeader` sends 200), `body` the bytes written so far.
   */
  class ResponseWriter {
    var header: Header
    var status: Option<int>
    var body: string

    /** The writer the server hands to a handler for a new request */
    constructor ()
      ensures header == map[] && status == None && body == ""
    {
      header, status, body := map[], None, "";
    }

    method SetHeader(key: string, value: string)
      modifies this
      ensures header == Set(old(header), key, value)
      ensures status == old(status) && body == old(body)
    {
      header := Set(header, key, value);
    }

    method AddHeader(key: string, value: string)
      modifies this
      ensures header == Add(old(header), key, value)
      ensures status == old(status) && body == old(body)
    {
      header := Add(header, key, value);
    }

    /** A handler setting each key of `h` in turn */
    method SetHeaders(h: Header)
      modifies this
      ensures header == old(header) + h
      ensures status == old(status) && body == old(body)
    {
      header := header + h;
    }

    method WriteHeader(code: int)
      modifies this
      ensures status == (if old(status).Some? then old(status) else Some(code))
      ensures header == old(header) && body == old(body)
    {
      if status.None? {
        status := Some(code);
      }
    }

    method Write(data: string)
      modifies this
      ensures status == (if old(status).Some? then old(status) else Some(200))
      ensures body == old(body) + data
      ensures header == old(header)
    {
      if status.None? {
        status := Some(200);
      }
      body := body + data;
    }
  }
}
