/**
 * The WeCom (enterprise WeChat) integration: PKCS #7 padding with a 32-byte
 * block (section 6.3 of RFC 5652), the sorted-join SHA-1 signature, the
 * callback message framing (16 random bytes, a 4-byte big-endian length, the
 * XML, then the corp id) with AES-CBC, base64 (section 4 of RFC 4648),
 * UTF-8 and SHA-1 kept abstract, the message push with retries, and the
 * callback handler.
 */
module Wecom {
  import opened Wrappers
  import opened Text
  import opened Order
  import Chat
  import Publisher

  // ---------------------------------------------------------------------------
  // Bytes and PKCS #7 padding

  newtype byte = x: int | 0 <= x < 256

  type Bytes = seq<byte>

  const BlockSize: nat := 32

  /** `bytes([b]) * n`. */
  function Repeat(b: byte, n: nat): (r: Bytes)
    ensures |r| == n && forall i :: 0 <= i < n ==> r[i] == b
  {
    if n == 0 then [] else Repeat(b, n - 1) + [b]
  }

  /** `_pkcs7_pad`: append `p` copies of the byte `p`, `p` filling up to the next block boundary. */
  function Pad(data: Bytes): (r: Bytes)
    ensures |r| % BlockSize == 0 && |data| < |r| <= |data| + BlockSize
    ensures r[..|data|] == data
    ensures forall i :: |data| <= i < |r| ==> r[i] as int == |r| - |data|
  {
    var pad := BlockSize - |data| % BlockSize;
    var pad := if pad == 0 then BlockSize else pad;
    data + Repeat(pad as byte, pad)
  }

  /** A padded message: its last byte `p` is in 1..32 and its last `p` bytes all equal `p`. */
  predicate WellPadded(data: Bytes) {
    data != [] && 1 <= data[|data| - 1] as int <= BlockSize && data[|data| - 1] as int <= |data|
    && forall i :: |data| - data[|data| - 1] as int <= i < |data| ==> data[i] == data[|data| - 1]
  }

  /**
   * `_pkcs7_unpad`: reject empty data, a last byte outside 1..32 and pad
   * bytes that disagree; otherwise drop the padding.
   */
  function Unpad(data: Bytes): (r: Result<Bytes>)
    ensures r.Ok? <==> WellPadded(data)
    ensures r.Ok? ==> data == r.value + Repeat(data[|data| - 1], data[|data| - 1] as nat)
    ensures data == [] ==> r == Err("Invalid PKCS7 data")
  {
    if data == [] then Err("Invalid PKCS7 data")
    else
      var pad := data[|data| - 1] as int;
      if pad < 1 || pad > BlockSize then Err("Invalid PKCS7 padding")
      else if pad > |data| || data[|data| - pad..] != Repeat(pad as byte, pad) then
        Err("Invalid PKCS7 padding")
      else
        assert data == data[..|data| - pad] + data[|data| - pad..];
        Ok(data[..|data| - pad])
  }

  /** Unpadding undoes padding. */
  lemma UnpadPad(data: Bytes)
    ensures Unpad(Pad(data)) == Ok(data)
  {
    var r := Pad(data);
    var pad := |r| - |data|;
    assert r[|r| - 1] as int == pad;
    assert WellPadded(r);
    assert r[..|r| - pad] == data;
  }

  // ---------------------------------------------------------------------------
  // Framing

  const TwoTo32: nat := 0x1_0000_0000

  /** `struct.pack(">I", n)`. */
  function BigEndian32(n: nat): (r: Bytes)
    requires n < TwoTo32
    ensures |r| == 4
  {
    [(n / 0x100_0000) as byte, (n / 0x1_0000 % 0x100) as byte, (n / 0x100 % 0x100) as byte, (n % 0x100) as byte]
  }

  /** `struct.unpack(">I", b)[0]`. */
  function ReadBigEndian32(b: Bytes): (n: nat)
    requires |b| == 4
    ensures n < TwoTo32
  {
    b[0] as nat * 0x100_0000 + b[1] as nat * 0x1_0000 + b[2] as nat * 0x100 + b[3] as nat
  }

  /** Reading back a packed length gives the length. */
  lemma ReadBigEndian32Packed(n: nat)
    requires n < TwoTo32
    ensures ReadBigEndian32(BigEndian32(n)) == n
  {
    var q3, r3 := n / 0x100, n % 0x100;
    var q2, r2 := q3 / 0x100, q3 % 0x100;
    var q1, r1 := q2 / 0x100, q2 % 0x100;
    assert n / 0x1_0000 == q2 && n / 0x100_0000 == q1;
    assert n == q1 * 0x100_0000 + r1 * 0x1_0000 + r2 * 0x100 + r3;
  }

  /** The plain text of a callback message before padding. */
  function Frame(random: Bytes, text: Bytes, receiver: Bytes): Bytes
    requires |text| < TwoTo32
  {
    random + BigEndian32(|text|) + text + receiver
  }

  /**
   * The framing read back as `decrypt` reads it: the length at offset 16,
   * then that many bytes of XML (fewer when the data is shorter, as slicing
   * goes) and the rest as the receiver; data shorter than 20 bytes makes
   * `struct.unpack` raise.
   */
  function Unframe(plain: Bytes): (r: Result<(Bytes, Bytes)>)
    ensures r.Ok? <==> |plain| >= 20
    ensures r.Ok? ==> plain[20..] == r.value.0 + r.value.1
  {
    if |plain| < 20 then Err("unpack requires a buffer of 4 bytes")
    else
      var n := ReadBigEndian32(plain[16..20]);
      var end := if 20 + n <= |plain| then 20 + n else |plain|;
      assert plain[20..] == plain[20..end] + plain[end..];
      Ok((plain[20..end], plain[end..]))
  }

  /** Unframing undoes framing when the random prefix has its 16 bytes. */
  lemma UnframeFrame(random: Bytes, text: Bytes, receiver: Bytes)
    requires |random| == 16 && |text| < TwoTo32
    ensures Unframe(Frame(random, text, receiver)) == Ok((text, receiver))
  {
    var plain := Frame(random, text, receiver);
    assert plain[16..20] == BigEndian32(|text|);
    ReadBigEndian32Packed(|text|);
    assert plain[20..20 + |text|] == text;
    assert plain[20 + |text|..] == receiver;
  }

  // ---------------------------------------------------------------------------
  // Signature and the cipher

  /**
   * The primitives the module borrows: base64, AES-CBC (decryption fails on
   * data that is not a whole number of blocks), UTF-8 and the SHA-1 hex
   * digest of a string's UTF-8 bytes.
   */
  datatype Primitives = Primitives(
    b64encode: Bytes -> string,
    b64decode: string -> Option<Bytes>,
    aesEncrypt: (Bytes, Bytes, Bytes) -> Bytes,
    aesDecrypt: (Bytes, Bytes, Bytes) -> Option<Bytes>,
    utf8: string -> Bytes,
    fromUtf8: Bytes -> Option<string>,
    sha1: string -> string)

  /** Each decoding undoes its encoding. */
  ghost predicate Invertible(p: Primitives) {
    (forall b :: p.b64decode(p.b64encode(b)) == Some(b))
    && (forall key, iv, b :: p.aesDecrypt(key, iv, p.aesEncrypt(key, iv, b)) == Some(b))
    && (forall s :: p.fromUtf8(p.utf8(s)) == Some(s))
  }

  /** `_sha1_signature`: the digest of the four strings sorted and joined. */
  function Signature(token: string, timestamp: string, nonce: string, encrypted: string, sha1: string -> string): string {
    sha1(Join(SortBy([token, timestamp, nonce, encrypted], StrLe), ""))
  }

  /** The signature does not depend on the order of its four arguments. */
  lemma SignatureSymmetric(args: seq<string>, perm: seq<string>, sha1: string -> string)
    requires |args| == 4 && multiset(perm) == multiset(args)
    ensures |perm| == 4
    ensures Signature(args[0], args[1], args[2], args[3], sha1) == Signature(perm[0], perm[1], perm[2], perm[3], sha1)
  {
    assert |perm| == |multiset(perm)| == |multiset(args)| == 4;
    assert args == [args[0], args[1], args[2], args[3]];
    assert perm == [perm[0], perm[1], perm[2], perm[3]];
    StrLeTotalOrder();
    SortByPermutationInvariant(args, perm, StrLe);
  }

  /** A `WecomCrypto` object: its fields are set once, by the constructor. */
  datatype Crypto = Crypto(token: string, corpId: string, aesKey: Bytes, iv: Bytes)

  /**
   * `WecomCrypto(token, encoding_aes_key, corp_id)`: all three settings are
   * required; the key is the base64 decoding of the setting plus `=`, and
   * the IV its first 16 bytes.
   */
  function NewCrypto(token: string, encodingAesKey: string, corpId: string, p: Primitives): (r: Result<Crypto>)
    ensures token == "" || encodingAesKey == "" || corpId == "" ==> r == Err("Missing WeCom crypto settings")
    ensures r.Ok? ==>
              r.value.token == token && r.value.corpId == corpId
              && r.value.iv == r.value.aesKey[..if |r.value.aesKey| < 16 then |r.value.aesKey| else 16]
  {
    if token == "" || encodingAesKey == "" || corpId == "" then Err("Missing WeCom crypto settings")
    else match p.b64decode(encodingAesKey + "=")
      case None => Err("Incorrect padding")
      case Some(key) => Ok(Crypto(token, corpId, key, key[..if |key| < 16 then |key| else 16]))
  }

  /**
   * `WecomCrypto.decrypt`: check the signature, then base64-decode, decrypt,
   * unpad and unframe, and accept only a receiver equal to the corp id.
   */
  function Decrypt(c: Crypto, encrypted: string, signature: string, timestamp: string, nonce: string, p: Primitives)
    : (r: Result<string>)
    ensures r.Ok? ==> signature == Signature(c.token, timestamp, nonce, encrypted, p.sha1)
    ensures signature != Signature(c.token, timestamp, nonce, encrypted, p.sha1) ==> r == Err("Invalid WeCom signature")
  {
    if Signature(c.token, timestamp, nonce, encrypted, p.sha1) != signature then Err("Invalid WeCom signature")
    else match p.b64decode(encrypted)
      case None => Err("Incorrect padding")
      case Some(decoded) =>
        match p.aesDecrypt(c.aesKey, c.iv, decoded)
        case None => Err("Data must be padded to 16 byte boundary in CBC mode")
        case Some(padded) => Opened(c, padded, p)
  }

  /** The decrypted bytes opened: unpadded, unframed, the receiver checked, the XML decoded. */
  function Opened(c: Crypto, padded: Bytes, p: Primitives): (r: Result<string>)
  {
    match Unpad(padded)
    case Err(e) => Err(e)
    case Ok(plain) =>
      match Unframe(plain)
      case Err(e) => Err(e)
      case Ok((xml, receiver)) =>
        match p.fromUtf8(receiver)
        case None => Err("'utf-8' codec can't decode")
        case Some(receiveId) =>
          if receiveId != c.corpId then Err("WeCom corp id mismatch")
          else match p.fromUtf8(xml)
            case None => Err("'utf-8' codec can't decode")
            case Some(text) => Ok(text)
  }

  /** A message framed for another receiver is refused. */
  lemma OtherReceiverRejected(c: Crypto, random: Bytes, text: Bytes, receiver: Bytes, p: Primitives)
    requires |random| == 16 && |text| < TwoTo32
    requires p.fromUtf8(receiver).Some? && p.fromUtf8(receiver).value != c.corpId
    ensures Opened(c, Pad(Frame(random, text, receiver)), p) == Err("WeCom corp id mismatch")
  {
    UnpadPad(Frame(random, text, receiver));
    UnframeFrame(random, text, receiver);
  }

  /** The `Encrypt` field of an outgoing message: framed, padded, encrypted and base64-encoded. */
  function Seal(c: Crypto, plainText: string, random: Bytes, p: Primitives): Result<string> {
    var text := p.utf8(plainText);
    if |text| >= TwoTo32 then Err("'I' format requires 0 <= number <= 4294967295")
    else Ok(p.b64encode(p.aesEncrypt(c.aesKey, c.iv, Pad(Frame(random, text, p.utf8(c.corpId))))))
  }

  /** The four fields of the XML `encrypt` returns. */
  datatype Envelope = Envelope(encrypt: string, msgSignature: string, timeStamp: string, nonce: string)

  function Render(e: Envelope): string {
    "<xml>"
    + "<Encrypt><![CDATA[" + e.encrypt + "]]></Encrypt>"
    + "<MsgSignature><![CDATA[" + e.msgSignature + "]]></MsgSignature>"
    + "<TimeStamp>" + e.timeStamp + "</TimeStamp>"
    + "<Nonce><![CDATA[" + e.nonce + "]]></Nonce>"
    + "</xml>"
  }

  /**
   * The envelope `WecomCrypto.encrypt` renders: the sealed text, signed
   * with the given timestamp or, when it is empty, the clock's.
   */
  function Seals(c: Crypto, plainText: string, nonce: string, timestamp: string, now: int, random: Bytes,
                 p: Primitives): (r: Result<Envelope>)
    ensures r.Ok? ==>
              r.value.nonce == nonce
              && r.value.timeStamp == (if timestamp == "" then ShowInt(now) else timestamp)
              && r.value.msgSignature == Signature(c.token, r.value.timeStamp, nonce, r.value.encrypt, p.sha1)
  {
    var ts := if timestamp == "" then ShowInt(now) else timestamp;
    match Seal(c, plainText, random, p)
    case Err(e) => Err(e)
    case Ok(encrypted) => Ok(Envelope(encrypted, Signature(c.token, ts, nonce, encrypted, p.sha1), ts, nonce))
  }

  /** `WecomCrypto.encrypt`. */
  function Encrypt(c: Crypto, plainText: string, nonce: string, timestamp: string, now: int, random: Bytes,
                   p: Primitives): (r: Result<string>)
    ensures r.Ok? <==> Seals(c, plainText, nonce, timestamp, now, random, p).Ok?
  {
    match Seals(c, plainText, nonce, timestamp, now, random, p)
    case Err(e) => Err(e)
    case Ok(e) => Ok(Render(e))
  }

  /** Opening what was sealed for the corp gives the plain text back. */
  lemma OpenedSealed(c: Crypto, plainText: string, random: Bytes, p: Primitives)
    requires Invertible(p) && |random| == 16 && |p.utf8(plainText)| < TwoTo32
    ensures Opened(c, Pad(Frame(random, p.utf8(plainText), p.utf8(c.corpId))), p) == Ok(plainText)
  {
    var text, receiver := p.utf8(plainText), p.utf8(c.corpId);
    UnpadPad(Frame(random, text, receiver));
    UnframeFrame(random, text, receiver);
    assert p.fromUtf8(receiver) == Some(c.corpId);
    assert p.fromUtf8(text) == Some(plainText);
  }

  /**
   * Decrypting the fields of an envelope `encrypt` made gives the plain
   * text back, whatever the random prefix, nonce and timestamp.
   */
  lemma DecryptEncrypted(c: Crypto, plainText: string, nonce: string, timestamp: string, now: int, random: Bytes,
                         p: Primitives)
    requires Invertible(p) && |random| == 16
    requires Seals(c, plainText, nonce, timestamp, now, random, p).Ok?
    ensures var e := Seals(c, plainText, nonce, timestamp, now, random, p).value;
      Decrypt(c, e.encrypt, e.msgSignature, e.timeStamp, e.nonce, p) == Ok(plainText)
  {
    var e := Seals(c, plainText, nonce, timestamp, now, random, p).value;
    var padded := Pad(Frame(random, p.utf8(plainText), p.utf8(c.corpId)));
    assert p.b64decode(e.encrypt) == Some(p.aesEncrypt(c.aesKey, c.iv, padded));
    assert p.aesDecrypt(c.aesKey, c.iv, p.aesEncrypt(c.aesKey, c.iv, padded)) == Some(padded);
    OpenedSealed(c, plainText, random, p);
  }

  // ---------------------------------------------------------------------------
  // Pushing a message

  /** The WeCom settings the module reads. */
  datatype Config = Config(
    corpId: string,
    secret: string,
    agentId: string,
    token: string,
    encodingAesKey: string,
    baseUrl: string)

  /** The JSON body `push_wecom_message` posts; any type but markdown is sent as text. */
  datatype Message = Message(toUser: string, msgType: string, agentId: int, content: string)

  function MessageOf(toUser: string, msgType: string, agentId: int, content: string): Message {
    Message(toUser, if msgType == "markdown" then "markdown" else "text", agentId, content)
  }

  /**
   * `push_wecom_message` over the token cache `entries`: refuse an empty
   * recipient, parse the agent id (a `ValueError` when it is not a
   * numeral), then send over `(0,) + retries`, where `attempt(m, k)` is
   * what the `k`-th attempt to post `m` meets.  Missing credentials raise
   * inside the first attempt, after its zero wait.
   */
  function Pushing(entries: Chat.Tokens, config: Config, toUser: string, content: string, msgType: string,
                   retries: seq<int>, attempt: (Message, nat) -> Chat.Attempt): (r: Chat.Sending)
    ensures toUser == "" ==> r == Chat.Sending(Err("Missing WeCom to_user"), 0, [], entries)
    ensures toUser != "" && ParseInt(config.agentId).Ok? && (config.corpId == "" || config.secret == "") ==>
      r == Chat.Sending(Err("Missing WeCom credentials"), 1, [], entries)
  {
    if toUser == "" then Chat.Sending(Err("Missing WeCom to_user"), 0, [], entries)
    else match ParseInt(config.agentId)
      case Err(e) => Chat.Sending(Err(e), 0, [], entries)
      case Ok(agentId) =>
        if config.corpId == "" || config.secret == "" then Chat.Sending(Err("Missing WeCom credentials"), 1, [], entries)
        else
          var m := MessageOf(toUser, msgType, agentId, content);
          Chat.SendFrom([0] + retries, 0, entries, Chat.Step(Chat.CacheKey(config.corpId, config.baseUrl), (k: nat) => attempt(m, k)))
  }

  /** At most one attempt per wait, and a sleep exactly before the attempts whose wait is positive. */
  lemma PushingBounds(entries: Chat.Tokens, config: Config, toUser: string, content: string, msgType: string,
                      retries: seq<int>, attempt: (Message, nat) -> Chat.Attempt)
    ensures var r := Pushing(entries, config, toUser, content, msgType, retries, attempt);
      r.tries <= 1 + |retries| && r.sleeps == Publisher.PositiveWaits(([0] + retries)[..r.tries])
  {
    var r := Pushing(entries, config, toUser, content, msgType, retries, attempt);
    if toUser != "" && ParseInt(config.agentId).Ok? {
      if config.corpId == "" || config.secret == "" {
        assert ([0] + retries)[..1] == [0];
        assert Publisher.PositiveWaits([0]) == [];
      } else {
        var m := MessageOf(toUser, msgType, ParseInt(config.agentId).value, content);
        Chat.SendFromBounds([0] + retries, 0, entries, Chat.Step(Chat.CacheKey(config.corpId, config.baseUrl), (k: nat) => attempt(m, k)));
        assert ([0] + retries)[0..0 + r.tries] == ([0] + retries)[..r.tries];
      }
    }
  }

  /** `push_wecom_message` against the process-wide token cache. */
  method PushMessage(cache: Chat.TokenCache, config: Config, toUser: string, content: string, msgType: string,
                     retries: seq<int>, attempt: (Message, nat) -> Chat.Attempt)
    returns (r: Result<bool>, tries: nat, sleeps: seq<int>)
    modifies cache
    ensures Chat.Sending(r, tries, sleeps, cache.entries)
      == Pushing(old(cache.entries), config, toUser, content, msgType, retries, attempt)
  {
    if toUser == "" {
      return Err("Missing WeCom to_user"), 0, [];
    }
    var agentId := ParseInt(config.agentId);
    if agentId.Err? {
      return Err(agentId.error), 0, [];
    }
    if config.corpId == "" || config.secret == "" {
      return Err("Missing WeCom credentials"), 1, [];
    }
    var m := MessageOf(toUser, msgType, agentId.value, content);
    r, tries, sleeps := Chat.Send(cache, Chat.CacheKey(config.corpId, config.baseUrl), retries, (k: nat) => attempt(m, k));
  }

  /** `_send_reply`: one push without retries; an exception counts as not delivered. */
  method SendReply(cache: Chat.TokenCache, config: Config, toUser: string, content: string, msgType: string,
                   attempt: (Message, nat) -> Chat.Attempt) returns (ok: bool)
    modifies cache
    ensures var s := Pushing(old(cache.entries), config, toUser, content, msgType, [], attempt);
      ok == (s.outcome == Ok(true)) && cache.entries == s.tokens
  {
    var r, _, _ := PushMessage(cache, config, toUser, content, msgType, [], attempt);
    ok := r == Ok(true);
  }

  // ---------------------------------------------------------------------------
  // The callback handler

  const HelpText: string :=
    "可用命令：\n"
    + "/run 或 运行日报：立即执行并回传当天完整日报\n"
    + "/latest 或 最新日报：查看最近一次归档摘要\n"
    + "/status 或 状态：查看服务状态\n"
    + "/help 或 帮助：查看帮助"

  const UnknownHint: string := "未识别到指令。\n发送 /help 查看可用命令，或直接发送：运行日报 / 最新日报 / 状态"

  const RunAck: string := "已收到 /run，开始执行，请稍候。"

  /** `_parse_xml_text`: the root's children by tag (`None` when the XML does not parse). */
  type XmlParser = string -> Option<map<string, string>>

  function Get(m: map<string, string>, key: string, default: string): string {
    if key in m then m[key] else default
  }

  /** `_extract_encrypted_from_callback`: the stripped `Encrypt` field, which must be non-empty. */
  function EncryptedOf(body: string, parse: XmlParser): (r: Result<string>)
    ensures r.Ok? ==> r.value != ""
  {
    match parse(body)
    case None => Err("syntax error")
    case Some(fields) =>
      var encrypted := Strip(Get(fields, "Encrypt", ""));
      if encrypted == "" then Err("Missing WeCom Encrypt field") else Ok(encrypted)
  }

  /** The decrypted, parsed callback message: every step may raise. */
  function Received(body: string, signature: string, timestamp: string, nonce: string, config: Config,
                    p: Primitives, parse: XmlParser): Result<map<string, string>>
  {
    match NewCrypto(config.token, config.encodingAesKey, config.corpId, p)
    case Err(e) => Err(e)
    case Ok(c) => ReceivedBy(c, body, signature, timestamp, nonce, p, parse)
  }

  /** The callback message once the crypto object exists. */
  function ReceivedBy(c: Crypto, body: string, signature: string, timestamp: string, nonce: string,
                      p: Primitives, parse: XmlParser): Result<map<string, string>>
  {
    match EncryptedOf(body, parse)
    case Err(e) => Err(e)
    case Ok(encrypted) =>
      match Decrypt(c, encrypted, signature, timestamp, nonce, p)
      case Err(e) => Err(e)
      case Ok(xml) =>
        match parse(xml)
        case None => Err("syntax error")
        case Some(message) => Ok(message)
  }

  /** `handle_wecom_url_verification`: the decrypted echo string. */
  function UrlVerification(signature: string, timestamp: string, nonce: string, echo: string, config: Config,
                           p: Primitives): (r: Result<string>)
    ensures r.Ok? ==> NewCrypto(config.token, config.encodingAesKey, config.corpId, p).Ok?
  {
    match NewCrypto(config.token, config.encodingAesKey, config.corpId, p)
    case Err(e) => Err(e)
    case Ok(c) => Decrypt(c, echo, signature, timestamp, nonce, p)
  }

  /**
   * The event id: `MsgId` when non-empty, else `FromUserName:CreateTime`;
   * without either, adding to `None` raises.
   */
  function EventIdOf(message: map<string, string>): (r: Result<string>)
    ensures "MsgId" in message && message["MsgId"] != "" ==> r == Ok(message["MsgId"])
  {
    if "MsgId" in message && message["MsgId"] != "" then Ok(message["MsgId"])
    else if "FromUserName" !in message then Err("unsupported operand type(s) for +: 'NoneType' and 'str'")
    else Ok(message["FromUserName"] + ":" + Get(message, "CreateTime", ""))
  }

  /** One `_send_reply` call from the handler: recipient and text. */
  datatype Reply = Reply(toUser: string, content: string)

  /** The handler's answer (`"success"`, or an exception), its replies and the recipients of background runs. */
  datatype Outcome = Outcome(response: Result<string>, replies: seq<Reply>, runs: seq<string>)

  const Done: Outcome := Outcome(Ok("success"), [], [])

  /** The message type, stripped and lower-cased. */
  function Kind(message: map<string, string>): string {
    Lower(Strip(Get(message, "MsgType", "")))
  }

  /** The stripped sender. */
  function Sender(message: map<string, string>): string {
    Strip(Get(message, "FromUserName", ""))
  }

  /**
   * What a new message leads to: nothing without a sender; the help text
   * when the user enters the agent; nothing for other events and non-text
   * messages; for text, the hint when no command is recognised (even for
   * empty text), else the command's reply, and for `/run` one background
   * run besides the acknowledgement.
   */
  function Respond(message: map<string, string>, latest: string, status: string): (r: Outcome)
    ensures r.response == Ok("success") && |r.replies| <= 1 && |r.runs| <= 1
    ensures r.runs != [] ==> r.replies == [Reply(r.runs[0], RunAck)]
    ensures r.replies != [] ==> Sender(message) != "" && r.replies[0].toUser == Sender(message)
  {
    React(Kind(message), Sender(message), message, latest, status)
  }

  /** `Respond` once the message type and the sender are read. */
  function React(msgType: string, from: string, message: map<string, string>, latest: string, status: string)
    : (r: Outcome)
    ensures r.response == Ok("success") && |r.replies| <= 1 && |r.runs| <= 1
    ensures r.runs != [] ==> r.replies == [Reply(r.runs[0], RunAck)]
    ensures r.replies != [] ==> from != "" && r.replies[0].toUser == from
  {
    if from == "" then Done
    else if msgType == "event" then OnEvent(message, from)
    else if msgType != "text" then Done
    else Answer(Strip(Get(message, "Content", "")), from, latest, status)
  }

  /** An event from `from`: the help text when they enter the agent, else nothing. */
  function OnEvent(message: map<string, string>, from: string): (r: Outcome)
    ensures r.response == Ok("success") && |r.replies| <= 1 && r.runs == []
    ensures r.replies != [] ==> r.replies[0].toUser == from
  {
    if Lower(Strip(Get(message, "Event", ""))) == "enter_agent" then Outcome(Ok("success"), [Reply(from, HelpText)], [])
    else Done
  }

  /** The reply to a text message's stripped content. */
  function Answer(text: string, from: string, latest: string, status: string): (r: Outcome)
    ensures r.response == Ok("success") && |r.replies| == 1 && r.replies[0].toUser == from
    ensures r.runs == (if Chat.ResolveCommand(text) == Some(Chat.Run) then [from] else [])
    ensures r.runs != [] ==> r.replies == [Reply(from, RunAck)]
    ensures Chat.ResolveCommand(text).None? ==> r.replies == [Reply(from, UnknownHint)]
  {
    match Chat.ResolveCommand(text)
    case None => Outcome(Ok("success"), [Reply(from, UnknownHint)], [])
    case Some(Help) => Outcome(Ok("success"), [Reply(from, HelpText)], [])
    case Some(Latest) => Outcome(Ok("success"), [Reply(from, latest)], [])
    case Some(Status) => Outcome(Ok("success"), [Reply(from, status)], [])
    case Some(Run) => Outcome(Ok("success"), [Reply(from, RunAck)], [from])
  }

  /** A decrypted message against the seen-event keys: a repeat is acknowledged and dropped. */
  function Dispatch(keys: seq<string>, message: map<string, string>, latest: string, status: string)
    : (r: (Outcome, seq<string>))
    ensures |r.0.replies| <= 1 && |r.0.runs| <= 1
  {
    match EventIdOf(message)
    case Err(e) => (Outcome(Err(e), [], []), keys)
    case Ok(eventId) =>
      var (dup, after) := Chat.SeenStep(keys, eventId);
      if dup then (Done, after) else (Respond(message, latest, status), after)
  }

  /** `handle_wecom_event` over the seen-event keys; returns the outcome and the keys afterwards. */
  function Handle(keys: seq<string>, body: string, signature: string, timestamp: string, nonce: string,
                  config: Config, p: Primitives, parse: XmlParser, latest: string, status: string)
    : (r: (Outcome, seq<string>))
    ensures Received(body, signature, timestamp, nonce, config, p, parse).Err? ==>
      r.0.response.Err? && r.0.replies == [] && r.0.runs == [] && r.1 == keys
    ensures |r.0.replies| <= 1 && |r.0.runs| <= 1
  {
    match Received(body, signature, timestamp, nonce, config, p, parse)
    case Err(e) => (Outcome(Err(e), [], []), keys)
    case Ok(message) => Dispatch(keys, message, latest, status)
  }

  /** The handler against the process-wide event cache. */
  method HandleEvent(cache: Chat.EventCache, body: string, signature: string, timestamp: string, nonce: string,
                     config: Config, p: Primitives, parse: XmlParser, latest: string, status: string)
    returns (out: Outcome)
    requires cache.Valid()
    modifies cache
    ensures cache.Valid()
    ensures (out, cache.keys) == Handle(old(cache.keys), body, signature, timestamp, nonce, config, p, parse, latest, status)
  {
    var received := Received(body, signature, timestamp, nonce, config, p, parse);
    if received.Err? {
      return Outcome(Err(received.error), [], []);
    }
    var eventId := EventIdOf(received.value);
    if eventId.Err? {
      return Outcome(Err(eventId.error), [], []);
    }
    var dup := cache.Seen(eventId.value);
    if dup {
      return Done;
    }
    out := Respond(received.value, latest, status);
  }

  // ---------------------------------------------------------------------------
  // What the handler promises

  /**
   * A callback sealed by `encrypt` for this corp, under the configured
   * token and key, is opened to the message it carries.
   */
  lemma SealedCallbackReceived(body: string, config: Config, p: Primitives, parse: XmlParser,
                               plainText: string, nonce: string, timestamp: string, now: int, random: Bytes,
                               message: map<string, string>)
    requires Invertible(p) && |random| == 16
    requires NewCrypto(config.token, config.encodingAesKey, config.corpId, p).Ok?
    requires var c := NewCrypto(config.token, config.encodingAesKey, config.corpId, p).value;
      Seals(c, plainText, nonce, timestamp, now, random, p).Ok?
      && parse(body).Some?
      && Strip(Get(parse(body).value, "Encrypt", "")) == Seals(c, plainText, nonce, timestamp, now, random, p).value.encrypt != ""
    requires parse(plainText) == Some(message)
    ensures var e := Seals(NewCrypto(config.token, config.encodingAesKey, config.corpId, p).value,
                           plainText, nonce, timestamp, now, random, p).value;
      Received(body, e.msgSignature, e.timeStamp, nonce, config, p, parse) == Ok(message)
  {
    var c := NewCrypto(config.token, config.encodingAesKey, config.corpId, p).value;
    var e := Seals(c, plainText, nonce, timestamp, now, random, p).value;
    DecryptEncrypted(c, plainText, nonce, timestamp, now, random, p);
  }

  /** A message whose id was already recorded is acknowledged with no reply and no run. */
  lemma RedeliveryIgnored(keys: seq<string>, message: map<string, string>, again: map<string, string>,
                          latest: string, status: string)
    requires EventIdOf(message).Ok? && EventIdOf(message).value != ""
    requires EventIdOf(again) == EventIdOf(message)
    ensures var after := Dispatch(keys, message, latest, status).1;
      Dispatch(after, again, latest, status) == (Done, after)
  {
    var id := EventIdOf(message).value;
    Chat.SeenStepRecords(keys, id);
    Chat.SeenStepRecords(Chat.SeenStep(keys, id).1, id);
  }

  /** Messages other than events and text get no reply. */
  lemma NonTextIgnored(message: map<string, string>, latest: string, status: string)
    requires Kind(message) != "event" && Kind(message) != "text"
    ensures Respond(message, latest, status) == Done
  {
  }

  /** A text message from a user is answered by its stripped content, with exactly one reply. */
  lemma TextAnswered(message: map<string, string>, latest: string, status: string)
    requires Kind(message) == "text" && Sender(message) != ""
    ensures Respond(message, latest, status) == Answer(Strip(Get(message, "Content", "")), Sender(message), latest, status)
    ensures |Respond(message, latest, status).replies| == 1
  {
  }

  /** A new `enter_agent` event from a user gets the help text. */
  lemma EnterAgentHelped(message: map<string, string>, latest: string, status: string)
    requires Kind(message) == "event"
    requires Lower(Strip(Get(message, "Event", ""))) == "enter_agent"
    requires Sender(message) != ""
    ensures Respond(message, latest, status)
      == Outcome(Ok("success"), [Reply(Sender(message), HelpText)], [])
  {
  }

  /** A text message naming no command gets the hint, and nothing runs. */
  lemma UnknownTextHinted(message: map<string, string>, latest: string, status: string)
    requires Kind(message) == "text"
    requires Sender(message) != ""
    requires Chat.ResolveCommand(Strip(Get(message, "Content", ""))).None?
    ensures Respond(message, latest, status)
      == Outcome(Ok("success"), [Reply(Sender(message), UnknownHint)], [])
  {
    TextAnswered(message, latest, status);
  }

  /**
   * A text naming the run command (`/run`, `运行日报`, … — `Chat.ResolveRun`)
   * from a user: one acknowledgement to the user and one background run for them.
   */
  lemma RunAcknowledged(message: map<string, string>, latest: string, status: string)
    requires Kind(message) == "text" && Sender(message) != ""
    requires Chat.ResolveCommand(Strip(Get(message, "Content", ""))) == Some(Chat.Run)
    ensures var from := Sender(message);
      Respond(message, latest, status) == Outcome(Ok("success"), [Reply(from, RunAck)], [from])
  {
    TextAnswered(message, latest, status);
    RunAnswered(Strip(Get(message, "Content", "")), Sender(message), latest, status);
  }

  lemma RunAnswered(text: string, from: string, latest: string, status: string)
    requires Chat.ResolveCommand(text) == Some(Chat.Run)
    ensures Answer(text, from, latest, status) == Outcome(Ok("success"), [Reply(from, RunAck)], [from])
  {
  }
}
