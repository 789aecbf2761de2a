/**
 * The chat-platform calls the submit handler makes, as a collaborator with
 * observable effects: file lookup, direct messages and message updates.
 * Whether the platform accepts a call is the constant `available`; a refused
 * call is what the source logs as a platform error and reports as failure.
 */
module SlackService {
  import opened Json
  import opened BlockBuilder

  datatype DirectMessage = DirectMessage(user: Value, blocks: seq<Block>, text: string)

  datatype MessageUpdate = MessageUpdate(channel: Value, ts: Value, blocks: seq<Block>, text: string)

  class SlackClient {
    /** What the platform's file lookup returns per file id. */
    const files: map<Value, Value>
    const available: bool
    /** Every direct message delivered, in order. */
    var sentDms: seq<DirectMessage>
    /** Every message update delivered, in order. */
    var updates: seq<MessageUpdate>

    constructor (files: map<Value, Value>, available: bool)
      ensures this.files == files && this.available == available
      ensures sentDms == [] && updates == []
    {
      this.files := files;
      this.available := available;
      sentDms := [];
      updates := [];
    }

    /** `get_file_info`: the file object, or None when the lookup fails. */
    function FileInfo(fileId: Value): (r: Option<Value>)
      ensures r.Some? <==> available && fileId in files
      ensures r.Some? ==> r.value == files[fileId]
    {
      if available && fileId in files then Some(files[fileId]) else None
    }

    /** `send_dm`: open a direct conversation with the user and post into it. */
    method SendDm(user: Value, blocks: seq<Block>, text: string) returns (ok: bool)
      modifies this`sentDms
      ensures ok == available
      ensures sentDms == old(sentDms) + if ok then [DirectMessage(user, blocks, text)] else []
    {
      ok := available;
      if ok {
        sentDms := sentDms + [DirectMessage(user, blocks, text)];
      }
    }

    /** `update_message`: replace an existing message's blocks. */
    method UpdateMessage(channel: Value, ts: Value, blocks: seq<Block>, text: string) returns (ok: bool)
      modifies this`updates
      ensures ok == available
      ensures updates == old(updates) + if ok then [MessageUpdate(channel, ts, blocks, text)] else []
    {
      ok := available;
      if ok {
        updates := updates + [MessageUpdate(channel, ts, blocks, text)];
      }
    }
  }
}
