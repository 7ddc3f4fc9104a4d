/** How each stored message, and the attachment it carries, is turned into
    the sanitised record the client receives: defaults for the mandatory
    fields, optional fields copied only under their conditions, and no key
    beyond the known ones. */
module Projection {
  import opened Values
  import opened Chats

  /** The only keys an attachment view can have. */
  const AttachmentKeys: set<string> := {"fileName", "fileType", "size", "s3Key", "data", "displayUrl", "note"}

  /** The only keys a message view can have. */
  const MessageKeys: set<string> := {"id", "role", "content", "mode", "model", "attachment"}

  /** `out` holds key `k` of `src` exactly when `src` holds it with a truthy value, and then the same value. */
  predicate CopiedIfTruthy(src: Dict, out: Dict, k: string) {
    && (k in out <==> k in src && Truthy(src[k]))
    && (k in out && k in src ==> out[k] == src[k])
  }

  /** `out` holds key `k` of `src` exactly when `src` holds it, whatever its value, and then the same value. */
  predicate CopiedIfPresent(src: Dict, out: Dict, k: string) {
    && (k in out <==> k in src)
    && (k in out && k in src ==> out[k] == src[k])
  }

  /** `out` holds key `k` exactly when the optional field `v` is present, and then its value. */
  predicate CopiedField(v: Option<Value>, out: Dict, k: string) {
    && (k in out <==> v.Some?)
    && (k in out && v.Some? ==> out[k] == v.value)
  }

  /** `out` is the sanitised view of the stored attachment `a`. */
  predicate IsAttachmentView(a: Dict, out: Dict) {
    && out.Keys <= AttachmentKeys
    && "fileName" in out && out["fileName"] == Get(a, "fileName", Str(""))
    && "fileType" in out && out["fileType"] == Get(a, "fileType", Str(""))
    && "size" in out && out["size"] == Get(a, "size", Num(0))
    && CopiedIfTruthy(a, out, "s3Key")
    && CopiedIfTruthy(a, out, "data")
    && CopiedIfPresent(a, out, "displayUrl")
    && CopiedIfPresent(a, out, "note")
  }

  /** `out` is the sanitised view of the stored message `m`. */
  predicate IsMessageView(m: StoredMessage, out: Dict) {
    && out.Keys <= MessageKeys
    && "id" in out && out["id"] == m.id.GetOr(Str(""))
    && "role" in out && out["role"] == m.role.GetOr(Str(""))
    && "content" in out && out["content"] == m.content.GetOr(Str(""))
    && CopiedField(m.mode, out, "mode")
    && CopiedField(m.model, out, "model")
    && ("attachment" in out <==> m.attachment.Some? && m.attachment.value != map[])
    && ("attachment" in out && m.attachment.Some? ==>
          out["attachment"].Object? && IsAttachmentView(m.attachment.value, out["attachment"].fields))
  }

  /** `outs` holds the views of `msgs`, one per message, in the same order. */
  predicate IsMessagesView(msgs: seq<StoredMessage>, outs: seq<Dict>) {
    && |outs| == |msgs|
    && forall i :: 0 <= i < |msgs| ==> IsMessageView(msgs[i], outs[i])
  }

  /** An attachment has exactly one view: the conditions leave no choice. */
  lemma AttachmentViewUnique(a: Dict, o1: Dict, o2: Dict)
    requires IsAttachmentView(a, o1) && IsAttachmentView(a, o2)
    ensures o1 == o2
  {
  }

  /** A message has exactly one view. */
  lemma MessageViewUnique(m: StoredMessage, o1: Dict, o2: Dict)
    requires IsMessageView(m, o1) && IsMessageView(m, o2)
    ensures o1 == o2
  {
    if "attachment" in o1 {
      AttachmentViewUnique(m.attachment.value, o1["attachment"].fields, o2["attachment"].fields);
    }
    forall k | k in o1 ensures k in o2 && o1[k] == o2[k] {
      assert k in MessageKeys;
    }
    forall k | k in o2 ensures k in o1 {
      assert k in MessageKeys;
    }
    assert o1.Keys == o2.Keys;
  }

  /** `process_attachment`: None for a missing or empty attachment, and
      otherwise its view, built by conditional insertions. */
  method ProcessAttachment(attachment: Option<Dict>) returns (r: Option<Dict>)
    ensures r.None? <==> attachment.None? || attachment.value == map[]
    ensures r.Some? ==> attachment.Some? && IsAttachmentView(attachment.value, r.value)
  {
    if attachment.None? || attachment.value == map[] {
      return None;
    }
    var a := attachment.value;
    var processed := map[
      "fileName" := Get(a, "fileName", Str("")),
      "fileType" := Get(a, "fileType", Str("")),
      "size" := Get(a, "size", Num(0))];
    if "s3Key" in a && Truthy(a["s3Key"]) {
      processed := processed["s3Key" := a["s3Key"]];
    }
    if "data" in a && Truthy(a["data"]) {
      processed := processed["data" := a["data"]];
    }
    if "displayUrl" in a {
      processed := processed["displayUrl" := a["displayUrl"]];
    }
    if "note" in a {
      processed := processed["note" := a["note"]];
    }
    return Some(processed);
  }

  /** The body of the projection loop of `get_chat_messages`: one stored
      message to its view. */
  method ProcessMessage(m: StoredMessage) returns (out: Dict)
    ensures IsMessageView(m, out)
  {
    out := map[
      "id" := m.id.GetOr(Str("")),
      "role" := m.role.GetOr(Str("")),
      "content" := m.content.GetOr(Str(""))];
    if m.mode.Some? {
      out := out["mode" := m.mode.value];
    }
    if m.model.Some? {
      out := out["model" := m.model.value];
    }
    if m.attachment.Some? && m.attachment.value != map[] {
      var processed := ProcessAttachment(m.attachment);
      if processed.Some? {
        out := out["attachment" := Object(processed.value)];
      }
    }
  }
}
