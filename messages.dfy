/** The transcript model shared by conversations.py and llm_client.py:
    turns, the completion request, the endpoint's reply, and the building of
    a user turn's content parts from its text and attachments. Attachment
    downloads and base64 encoding are the oracles of `MediaEnv`. */
module Messages {
  import opened Wrappers
  import opened Strings
  import opened Tools

  /** One content part of a user turn. */
  datatype Part = TextPart(text: string) | ImagePart(url: string)

  /** A tool call requested by the model; `arguments` is a JSON string. */
  datatype ToolCall = ToolCall(id: string, name: string, arguments: string)

  /** One transcript entry, by role. An assistant turn's `content` is `None`
      when the key is absent or null. */
  datatype Turn =
    | System(prompt: string)
    | User(parts: seq<Part>)
    | Assistant(content: Option<string>, toolCalls: seq<ToolCall>)
    | ToolTurn(callId: string, output: string)

  /** The message of the endpoint's first choice. */
  datatype Reply = Reply(content: Option<string>, toolCalls: seq<ToolCall>)

  /** What one completion call sends: the messages and, when tools are
      offered, their specs. */
  datatype Request = Request(messages: seq<Turn>, tools: Option<seq<ToolSpec>>)

  /** An attachment: its content type and URL. */
  datatype Media = Media(contentType: string, url: string)

  /** The answer of an attachment download. */
  datatype Fetch = Fetched(status: int, body: seq<bv8>) | FetchFailed

  /** The attachment download (`session.get(url)`) and `base64.b64encode`. */
  datatype MediaEnv = MediaEnv(download: string -> Fetch, b64: seq<bv8> -> string)

  /** The text part: the text itself, or "." when it is empty. */
  function TextPartOf(text: string): Part
  {
    TextPart(if text == "" then "." else text)
  }

  function DataUrl(contentType: string, encoded: string): string
  {
    "data:" + contentType + ";base64," + encoded
  }

  /** What one attachment contributes: nothing when its content type does not
      mention "image", or when its download fails or has a status the caller
      refuses (`ok`); otherwise one inline image part. */
  function MediaParts(m: Media, menv: MediaEnv, ok: int -> bool): (r: seq<Part>)
    ensures |r| <= 1
    ensures |r| == 1 <==>
      Contains(m.contentType, "image") && menv.download(m.url).Fetched? && ok(menv.download(m.url).status)
  {
    if !Contains(m.contentType, "image") then []
    else
      match menv.download(m.url)
      case FetchFailed => []
      case Fetched(status, body) =>
        if ok(status) then [ImagePart(DataUrl(m.contentType, menv.b64(body)))] else []
  }

  /** The concatenation of `f` over `xs`, in order. */
  function FlatMap<T, U>(xs: seq<T>, f: T -> seq<U>): seq<U>
    decreases |xs|
  {
    if xs == [] then [] else f(xs[0]) + FlatMap(xs[1..], f)
  }

  /** The image parts of all attachments, in attachment order. */
  function ImageParts(media: seq<Media>, menv: MediaEnv, ok: int -> bool): seq<Part>
  {
    FlatMap(media, m => MediaParts(m, menv, ok))
  }

  /** The content of the user turn built from a message's text and media. */
  function UserContent(text: string, media: seq<Media>, menv: MediaEnv, ok: int -> bool): seq<Part>
  {
    [TextPartOf(text)] + ImageParts(media, menv, ok)
  }

  lemma {:induction false} FlatMapAppend<T, U>(a: seq<T>, b: seq<T>, f: T -> seq<U>)
    ensures FlatMap(a + b, f) == FlatMap(a, f) + FlatMap(b, f)
    decreases |a|
  {
    if a == [] {
      assert a + b == b;
    } else {
      FlatMapAppend(a[1..], b, f);
      assert (a + b)[1..] == a[1..] + b;
    }
  }

  lemma ImagePartsAppend(a: seq<Media>, b: seq<Media>, menv: MediaEnv, ok: int -> bool)
    ensures ImageParts(a + b, menv, ok) == ImageParts(a, menv, ok) + ImageParts(b, menv, ok)
  {
    FlatMapAppend(a, b, m => MediaParts(m, menv, ok));
  }

  /** One more attachment adds its own parts at the end. */
  lemma ImagePartsSnoc(s: seq<Media>, m: Media, menv: MediaEnv, ok: int -> bool)
    ensures ImageParts(s + [m], menv, ok) == ImageParts(s, menv, ok) + MediaParts(m, menv, ok)
  {
    ImagePartsAppend(s, [m], menv, ok);
    ImagePartsSingle(m, menv, ok);
  }

  /** A single attachment contributes exactly its own parts. */
  lemma ImagePartsSingle(m: Media, menv: MediaEnv, ok: int -> bool)
    ensures ImageParts([m], menv, ok) == MediaParts(m, menv, ok)
  {
    assert [m][1..] == [];
    assert FlatMap([m][1..], x => MediaParts(x, menv, ok)) == [];
  }

  /** An attachment that contributes nothing (not an image, or its download
      failed) is dropped without disturbing the others. */
  lemma DroppedAttachment(a: seq<Media>, m: Media, b: seq<Media>, menv: MediaEnv, ok: int -> bool)
    requires MediaParts(m, menv, ok) == []
    ensures ImageParts(a + [m] + b, menv, ok) == ImageParts(a + b, menv, ok)
  {
    ImagePartsSingle(m, menv, ok);
    calc {
      ImageParts(a + [m] + b, menv, ok);
      { ImagePartsAppend(a + [m], b, menv, ok); }
      ImageParts(a + [m], menv, ok) + ImageParts(b, menv, ok);
      { ImagePartsAppend(a, [m], menv, ok); }
      ImageParts(a, menv, ok) + ImageParts(b, menv, ok);
      { ImagePartsAppend(a, b, menv, ok); }
      ImageParts(a + b, menv, ok);
    }
  }

  /** Every image part comes from one attachment: at most one part per
      attachment, all of them inline images. */
  lemma {:induction false} ImagePartsShape(media: seq<Media>, menv: MediaEnv, ok: int -> bool)
    ensures |ImageParts(media, menv, ok)| <= |media|
    ensures forall i :: 0 <= i < |ImageParts(media, menv, ok)| ==> ImageParts(media, menv, ok)[i].ImagePart?
    decreases |media|
  {
    if media != [] {
      ImagePartsShape(media[1..], menv, ok);
    }
  }

  /** The content starts with the text part ("." for empty text), which is
      never dropped, followed only by image parts. */
  lemma UserContentShape(text: string, media: seq<Media>, menv: MediaEnv, ok: int -> bool)
    ensures var c := UserContent(text, media, menv, ok);
      1 <= |c| <= 1 + |media|
      && c[0] == TextPart(if text == "" then "." else text)
      && forall i :: 1 <= i < |c| ==> c[i].ImagePart?
  {
    var c := UserContent(text, media, menv, ok);
    ImagePartsShape(media, menv, ok);
    assert forall i :: 1 <= i < |c| ==> c[i] == ImageParts(media, menv, ok)[i - 1];
  }

  /** The loop that builds the content (`openai_content`): the text part,
      then one image part per accepted image attachment. */
  method BuildContent(text: string, media: seq<Media>, menv: MediaEnv, ok: int -> bool)
    returns (content: seq<Part>)
    ensures content == UserContent(text, media, menv, ok)
  {
    if text != "" {
      content := [TextPart(text)];
    } else {
      content := [TextPart(".")];
    }
    for i := 0 to |media|
      invariant content == [TextPartOf(text)] + ImageParts(media[..i], menv, ok)
    {
      var m := media[i];
      assert media[..i + 1] == media[..i] + [m];
      ImagePartsSnoc(media[..i], m, menv, ok);
      if !Contains(m.contentType, "image") {
        continue;
      }
      var answer := menv.download(m.url);
      if answer.Fetched? && ok(answer.status) {
        content := content + [ImagePart(DataUrl(m.contentType, menv.b64(answer.body)))];
      }
    }
    assert media[..|media|] == media;
  }
}
