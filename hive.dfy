/**
 * The secured Hive metastore, reduced to what the import job observes: how
 * often it was asked for a delegation token, and what such a request yields.
 */
module Hive {
  import Job

  /**
   * The outcome of one token request: the decoded token, or a failure of any
   * of the steps (connecting the client, resolving the user, decoding).
   */
  datatype TokenFetch = Fetched(token: Job.Token) | FetchFailed

  class Metastore {
    /** Number of delegation-token requests made so far. */
    var requests: nat
    /** What every request yields. */
    const reply: TokenFetch

    constructor (reply: TokenFetch)
      ensures requests == 0 && this.reply == reply
    {
      requests := 0;
      this.reply := reply;
    }

    /** One client.getDelegationToken(owner, principal) request, decoded. */
    method GetDelegationToken() returns (r: TokenFetch)
      modifies this
      ensures requests == old(requests) + 1
      ensures r == reply
    {
      requests := requests + 1;
      r := reply;
    }
  }
}
