/**
 * The raw RouterOS API as the query builder sees it: a connection that takes
 * a sentence and answers with a list of reply items. The router is an
 * oracle fixed at construction; every sentence sent is recorded in a ghost log.
 */
module RawApi {
  import opened Sentences

  /** A sentence handed to the raw API, by `write` or by `stream`. */
  datatype Request = Sent(sentence: Sentence) | Streamed(sentence: Sentence)

  class Api {
    /** The router's reply to each sentence. */
    const respond: Sentence -> seq<RawItem>
    /** Every sentence sent so far, in order. */
    ghost var log: seq<Request>

    constructor (respond: Sentence -> seq<RawItem>)
      ensures this.respond == respond && log == []
    {
      this.respond := respond;
      log := [];
    }

    /** `rosApi.write(sentence)`. */
    method Write(sentence: Sentence) returns (reply: seq<RawItem>)
      modifies this
      ensures log == old(log) + [Sent(sentence)]
      ensures reply == respond(sentence)
    {
      log := log + [Sent(sentence)];
      reply := respond(sentence);
    }

    /** `rosApi.stream(sentence, …)`: the replies go to a callback that is not part of this model. */
    method Stream(sentence: Sentence)
      modifies this
      ensures log == old(log) + [Streamed(sentence)]
    {
      log := log + [Streamed(sentence)];
    }
  }
}
