/**
 * The server-sent-event stream both proxies return (the event-stream format
 * of section 9.2 of the WHATWG HTML Living Standard): one
 * `chat.completion.chunk` frame per upstream delta and a final `[DONE]`
 * frame, each sent as a `data: ...` line followed by a blank line.  The JSON
 * text of a chunk is left to a parameter.
 */
module Sse {
  import opened Wrappers

  /** One frame of the stream; a chunk carries the fields the proxies fill in. */
  datatype Frame =
    | Chunk(id: string, created: int, model: string, fingerprint: string, content: string)
    | Done

  /** The optional fields an upstream event may carry. */
  datatype EventMeta = EventMeta(id: Option<string>, created: Option<int>, fingerprint: Option<string>)

  /**
   * The chunk for one delta: `event.get('id', 'default_id')`,
   * `event.get('created', created)`, the request's model and
   * `event.get('system_fingerprint', '')`.
   */
  function ChunkFrame(meta: EventMeta, created: int, model: string, content: string): (f: Frame)
    ensures f.Chunk? && f.model == model && f.content == content
    ensures f.id == meta.id.GetOr("default_id")
    ensures f.created == meta.created.GetOr(created)
    ensures f.fingerprint == meta.fingerprint.GetOr("")
  {
    Chunk(meta.id.GetOr("default_id"), meta.created.GetOr(created), model, meta.fingerprint.GetOr(""), content)
  }

  /** A complete stream: chunks only, then exactly one `[DONE]` frame, last. */
  predicate Terminated(frames: seq<Frame>) {
    |frames| > 0 && frames[|frames| - 1] == Done
    && forall i :: 0 <= i < |frames| - 1 ==> frames[i].Chunk?
  }

  /** Any chunks followed by `[DONE]` form a complete stream, and only those do. */
  lemma TerminatedIff(frames: seq<Frame>)
    ensures Terminated(frames) <==>
              (exists chunks: seq<Frame> :: (forall f :: f in chunks ==> f.Chunk?) && frames == chunks + [Done])
  {
    if Terminated(frames) {
      var chunks := frames[..|frames| - 1];
      assert frames == chunks + [Done];
      assert forall f :: f in chunks ==> f.Chunk?;
    }
  }

  /** The line a frame is sent as; `encode` is the JSON encoding of a chunk. */
  function Render(f: Frame, encode: Frame -> string): (line: string)
    ensures |line| >= 8 && line[..6] == "data: " && line[|line| - 2..] == "\n\n"
    ensures f.Done? ==> line == "data: [DONE]\n\n"
    ensures f.Chunk? ==> line[6..|line| - 2] == encode(f)
  {
    "data: " + (if f.Done? then "[DONE]" else encode(f)) + "\n\n"
  }
}
