/**
 * The response bodies the handlers return to the chat platform, one
 * constructor per dictionary shape the source builds.
 */
module Responses {
  import opened Json
  import opened BlockBuilder

  datatype Response =
    | Ephemeral(blocks: seq<Block>, text: string)  // {"response_type": "ephemeral", "blocks": ..., "text": ...}
    | EphemeralText(text: string)                  // {"response_type": "ephemeral", "text": ...}
    | ReplaceOriginal(blocks: seq<Block>)          // {"blocks": ..., "replace_original": "true", "response_type": "ephemeral"}
    | Empty                                        // {}
    | Text(text: string)                           // {"text": ...}
    | UpdateView(blocks: seq<Block>)               // {"response_action": "update", "blocks": ...}
    | FieldErrors(errors: map<string, string>)     // {"response_action": "errors", "errors": ...}
    | Challenge(challenge: Value)                  // {"challenge": ...}
    | StatusOk                                     // {"status": "ok"}
}
