/** The part of an Express request the pipeline reads and writes. */
module Requests {
  import opened Common

  /** The claims the identity provider returns for a valid token. */
  datatype DecodedToken = DecodedToken(uid: string, email: Option<string>)

  /** Where a validator finds its input. */
  datatype Source = Body | Query | Params

  class Request {
    var authorization: Option<string>
    var firebaseUser: Option<DecodedToken>
    var body: Value
    var query: Value
    var params: Value

    /** A request as it arrives: no identity attached yet. */
    constructor (authorization: Option<string>, body: Value, query: Value, params: Value)
      ensures this.authorization == authorization && firebaseUser.None?
      ensures this.body == body && this.query == query && this.params == params
    {
      this.authorization := authorization;
      this.firebaseUser := None;
      this.body := body;
      this.query := query;
      this.params := params;
    }

    /** `req[source]`. */
    function Get(source: Source): Value
      reads this
    {
      match source
      case Body => body
      case Query => query
      case Params => params
    }

    /** `req[source] = v`: only the named source changes. */
    method Set(source: Source, v: Value)
      modifies this
      ensures Get(source) == v
      ensures forall s :: s != source ==> Get(s) == old(Get(s))
      ensures authorization == old(authorization) && firebaseUser == old(firebaseUser)
    {
      match source
      case Body => body := v;
      case Query => query := v;
      case Params => params := v;
    }
  }
}
