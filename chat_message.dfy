/**
 The chat message value and the wrapper object around it.

 `ChatMessage` is the record the protocol-buffer message `chat::ChatMessage`
 holds: six scalar fields, each with the protocol-buffer default (empty string,
 zero, the first enum value, empty bytes) until something sets it.
 `ChatMessageWrapper` is the object that owns one such record and updates it in
 place through its constructors, its two payload setters and `Decode`; its
 `Encode` and its getters only read it.
 */
module ChatMessages {

  /** `uint32_t`: the timestamp field's width. */
  newtype uint32 = x: int | 0 <= x < 0x1_0000_0000

  /** One octet of a byte string (`uint8_t`, or a `char` of a protocol-buffer `bytes` field). */
  newtype byte = x: int | 0 <= x < 0x100

  type Bytes = seq<byte>

  /** `chat::DataType`: the tag that says which payload the sender meant to fill in. */
  datatype DataType = TEXT | IMAGE

  /** The fields of `chat::ChatMessage`. */
  datatype ChatMessage = ChatMessage(
    userName: string,
    timestamp: uint32,
    dataType: DataType,
    messageText: string,
    imageExtension: string,
    imageData: Bytes)

  /**
   The serialiser and parser of the protocol-buffer library. Their bodies are
   generated code outside this model, so they enter as parameters:
   `serialize` stands for `SerializeToString`, `parse` for what
   `ParseFromString` leaves in a cleared message (on malformed input, whatever
   partial record it leaves; the caller never looks at its success flag).
   */
  datatype Codec = Codec(serialize: ChatMessage -> Bytes, parse: Bytes -> ChatMessage)

  /** The default instance of `chat::ChatMessage`: every field at its default. */
  function Default(): (m: ChatMessage)
    ensures m.userName == "" && m.timestamp == 0 && m.dataType == TEXT
    ensures IsBlankPayload(m)
  {
    ChatMessage("", 0, TEXT, "", "", [])
  }

  /** Neither payload has been set. */
  predicate IsBlankPayload(m: ChatMessage)
  {
    m.messageText == "" && m.imageExtension == "" && m.imageData == []
  }

  /** `a` and `b` agree on sender, timestamp and data-type tag. */
  predicate SameHeader(a: ChatMessage, b: ChatMessage)
  {
    a.userName == b.userName && a.timestamp == b.timestamp && a.dataType == b.dataType
  }

  /** The record the three-argument constructor leaves behind. */
  function Header(userName: string, timestamp: uint32, dataType: DataType): (m: ChatMessage)
    ensures m.userName == userName && m.timestamp == timestamp && m.dataType == dataType
    ensures IsBlankPayload(m)
  {
    Default().(userName := userName, timestamp := timestamp, dataType := dataType)
  }

  /** `m` after `set_message_text(text)`: the text is replaced, nothing else moves. */
  function WithText(m: ChatMessage, text: string): (r: ChatMessage)
    ensures r.messageText == text
    ensures SameHeader(r, m)
    ensures r.imageExtension == m.imageExtension && r.imageData == m.imageData
  {
    m.(messageText := text)
  }

  /** `m` after `set_image_extension(ext)` and `set_image_data(data)`: both image fields are replaced, nothing else moves. */
  function WithImage(m: ChatMessage, ext: string, data: Bytes): (r: ChatMessage)
    ensures r.imageExtension == ext
    ensures |r.imageData| == |data| && forall i :: 0 <= i < |data| ==> r.imageData[i] == data[i]
    ensures SameHeader(r, m)
    ensures r.messageText == m.messageText
  {
    m.(imageExtension := ext, imageData := data)
  }

  /**
   The record left by the three-argument constructor followed by both
   setters: exactly the six values given. Every record is built this way, so
   the six getters together determine the record.
   */
  function Build(userName: string, timestamp: uint32, dataType: DataType,
                 text: string, ext: string, data: Bytes): (m: ChatMessage)
    ensures m == ChatMessage(userName, timestamp, dataType, text, ext, data)
  {
    WithImage(WithText(Header(userName, timestamp, dataType), text), ext, data)
  }

  /** The two setters write disjoint fields, so the order in which they are called does not matter. */
  lemma SettersCommute(m: ChatMessage, text: string, ext: string, data: Bytes)
    ensures WithImage(WithText(m, text), ext, data) == WithText(WithImage(m, ext, data), text)
  {
  }

  /**
   The data-type tag is never checked against the payload: a message built
   with the TEXT tag accepts an image too, and then carries both payloads
   under a tag that names only one of them.
   */
  lemma TagNotEnforced(userName: string, timestamp: uint32, text: string, ext: string, data: Bytes)
    requires text != "" && data != []
    ensures var m := WithImage(WithText(Header(userName, timestamp, TEXT), text), ext, data);
      m.dataType == TEXT && m.messageText == text && m.imageData == data
  {
  }

  /** The C++ object `ChatMessageWrapper`: one `chat::ChatMessage` updated in place. */
  class ChatMessageWrapper {
    var message: ChatMessage

    /** The default constructor: an empty message. */
    constructor Empty()
      ensures message == Default()
    {
      message := Default();
    }

    /** Sets sender, timestamp and data-type tag; both payloads stay empty. */
    constructor (userName: string, timestamp: uint32, dataType: DataType)
      ensures GetUserName() == userName && GetTimestamp() == timestamp && GetDataType() == dataType
      ensures GetMessageText() == "" && GetImageExtension() == "" && GetImageData() == []
    {
      message := Header(userName, timestamp, dataType);
    }

    /** The implicit copy constructor: an independent object holding the same record. */
    constructor Copy(m: ChatMessage)
      ensures message == m
    {
      message := m;
    }

    /** Replaces the text payload; sender, timestamp, tag and image are untouched. */
    method SetTextMessage(messageText: string)
      modifies this
      ensures GetMessageText() == messageText
      ensures GetUserName() == old(GetUserName()) && GetTimestamp() == old(GetTimestamp())
      ensures GetDataType() == old(GetDataType())
      ensures GetImageExtension() == old(GetImageExtension()) && GetImageData() == old(GetImageData())
      ensures message == WithText(old(message), messageText)
    {
      message := WithText(message, messageText);
    }

    /** Replaces both image fields with a copy of the bytes given; sender, timestamp, tag and text are untouched. */
    method SetImageMessage(imageExtension: string, imageData: Bytes)
      modifies this
      ensures GetImageExtension() == imageExtension
      ensures |GetImageData()| == |imageData|
      ensures forall i :: 0 <= i < |imageData| ==> GetImageData()[i] == imageData[i]
      ensures GetUserName() == old(GetUserName()) && GetTimestamp() == old(GetTimestamp())
      ensures GetDataType() == old(GetDataType())
      ensures GetMessageText() == old(GetMessageText())
      ensures message == WithImage(old(message), imageExtension, imageData)
    {
      message := WithImage(message, imageExtension, imageData);
    }

    /** A const operation: returns the serialised record and changes no field. */
    method Encode(serialize: ChatMessage -> Bytes) returns (output: Bytes)
      ensures output == serialize(message)
    {
      output := serialize(message);
    }

    /** Replaces the whole record by what the parser makes of `input`; the earlier contents play no part. */
    method Decode(input: Bytes, parse: Bytes -> ChatMessage)
      modifies this
      ensures message == parse(input)
    {
      message := parse(input);
    }

    /** The sender name: the one value that, with the other five getters' results, rebuilds the record. */
    function GetUserName(): (r: string)
      reads this
      ensures message == Build(r, message.timestamp, message.dataType,
                               message.messageText, message.imageExtension, message.imageData)
    {
      message.userName
    }

    /** The timestamp: the one value that, with the other five getters' results, rebuilds the record. */
    function GetTimestamp(): (r: uint32)
      reads this
      ensures message == Build(message.userName, r, message.dataType,
                               message.messageText, message.imageExtension, message.imageData)
    {
      message.timestamp
    }

    /** The data-type tag: the one value that, with the other five getters' results, rebuilds the record. */
    function GetDataType(): (r: DataType)
      reads this
      ensures message == Build(message.userName, message.timestamp, r,
                               message.messageText, message.imageExtension, message.imageData)
    {
      message.dataType
    }

    /** The text payload: setting the text to it changes nothing. */
    function GetMessageText(): (r: string)
      reads this
      ensures message == WithText(message, r)
    {
      message.messageText
    }

    /**
     The stored image bytes, copied element by element into a fresh byte
     vector: setting the image to the stored extension and these bytes
     changes nothing.
     */
    function GetImageData(): (r: Bytes)
      reads this
      ensures |r| == |message.imageData|
      ensures message == WithImage(message, message.imageExtension, r)
    {
      message.imageData
    }

    /** The image extension: setting the image to it and the stored bytes changes nothing. */
    function GetImageExtension(): (r: string)
      reads this
      ensures message == WithImage(message, r, message.imageData)
    {
      message.imageExtension
    }
  }
}
