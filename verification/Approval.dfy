/** kis/ws/approval.go: the caching provider, in place, and the effect of its calls. */
module Approval {
  import opened Prelude
  import opened Text

  /** `cached` after a call, what the caller got, whether the REST endpoint was called and whether it issued a key. */
  datatype Answer = Answer(cached: Bytes, key: Option<Bytes>, called: bool, issued: bool)

  /** A provider without a REST client fails without a call; an empty key counts as failure. */
  function Issued(hasClient: bool, response: Option<Bytes>): Answer {
    if !hasClient || response.None? || response == Some([]) then Answer([], None, hasClient, false)
    else Answer(response.value, response, true, true)
  }

  function AnswerApproval(hasClient: bool, cached: Bytes, response: Option<Bytes>): Answer {
    if cached != [] then Answer(cached, Some(cached), false, false) else Issued(hasClient, response)
  }

  function AnswerReissue(hasClient: bool, response: Option<Bytes>): Answer {
    Issued(hasClient, response)
  }

  class ClientProvider {
    const hasClient: bool
    var cached: Bytes

    constructor (hasClient: bool)
      ensures this.hasClient == hasClient && cached == []
    {
      this.hasClient, cached := hasClient, [];
    }

    /** Runs under the provider's mutex; `response` is what the endpoint answers if it is called. */
    method Issue(response: Option<Bytes>) returns (key: Option<Bytes>, called: bool)
      modifies this
      ensures called == hasClient
      ensures key.Some? <==> called && response.Some? && response.value != []
      ensures key.Some? ==> key == response && cached == key.value
      ensures key.None? ==> cached == old(cached)
    {
      if !hasClient {
        return None, false;
      }
      if response.None? || response.value == [] {
        return None, true;
      }
      cached := response.value;
      return Some(cached), true;
    }

    /** A cached key comes without a REST call; else there is exactly one, and only its success is cached. */
    method ApprovalKey(response: Option<Bytes>) returns (key: Option<Bytes>, called: bool)
      modifies this
      ensures called <==> old(cached) == [] && hasClient
      ensures !called ==> cached == old(cached) && (key == if cached != [] then Some(cached) else None)
      ensures called ==> cached == if key.Some? then key.value else []
      ensures
        var a := AnswerApproval(hasClient, old(cached), response);
        key == a.key && cached == a.cached && called == a.called
    {
      if cached != [] {
        return Some(cached), false;
      }
      key, called := Issue(response);
    }

    /** Discards the cached key first, so a failed reissue leaves none behind. */
    method Reissue(response: Option<Bytes>) returns (key: Option<Bytes>, called: bool)
      modifies this
      ensures called == hasClient && cached == if key.Some? then key.value else []
      ensures
        var a := AnswerReissue(hasClient, response);
        key == a.key && cached == a.cached && called == a.called
    {
      cached := [];
      key, called := Issue(response);
    }
  }
}
