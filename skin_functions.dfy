/**
 * The two expression functions a configuration can call: skin_url_to_base64
 * wraps a skin URL in the textures JSON and Base64-encodes its UTF-8 bytes;
 * base64_to_skin_url decodes such a value and reads textures.SKIN.url.
 * The JSON parser and the platform's default charset belong to libraries
 * outside the model and are parameters.
 */
module SkinFunctions {
  import opened Wrappers
  import opened Base64
  import Utf8

  /** The JSON text before and after the URL. */
  const TexturePrefix := "{\"textures\":{\"SKIN\":{\"url\":\""
  const TextureSuffix := "\"}}}"

  /** The textures JSON around a URL, inserted as it is, without escaping. */
  function TextureJson(url: string): string
  {
    TexturePrefix + url + TextureSuffix
  }

  /** An argument declaration of an expression function. */
  datatype ArgumentType = StringType
  datatype FunctionArgument = FunctionArgument(name: string, description: string, required: bool, kind: ArgumentType)

  /** nonNull(args, index): the argument, or an error when it is missing or null. */
  function NonNull(args: seq<Option<string>>, index: nat): (r: Result<string, Exception>)
    ensures r.Success? <==> index < |args| && args[index].Some?
    ensures r.Success? ==> r.value == args[index].value
    ensures r.Failure? ==> r.error == InvalidFunctionArgument
  {
    if index < |args| && args[index].Some? then Success(args[index].value) else Failure(InvalidFunctionArgument)
  }

  /** SkinUrlToBase64Function.apply: the Base64 of the UTF-8 bytes of the textures JSON. */
  function SkinUrlToBase64(args: seq<Option<string>>): (r: Result<string, Exception>)
    ensures r.Failure? <==> NonNull(args, 0).Failure?
    ensures r.Success? ==> r.value == Base64.Encode(Utf8.Encode(TextureJson(args[0].value)))
  {
    match NonNull(args, 0)
    case Failure(e) => Failure(e)
    case Success(url) => Success(Base64.Encode(Utf8.Encode(TextureJson(url))))
  }

  /** The textures JSON is ASCII exactly when the URL is. */
  lemma TextureJsonAscii(url: string)
    ensures Utf8.IsAscii(TextureJson(url)) <==> Utf8.IsAscii(url)
  {
    var json := TextureJson(url);
    assert Utf8.IsAscii(TexturePrefix) && Utf8.IsAscii(TextureSuffix);
    assert forall i :: 0 <= i < |url| ==> json[|TexturePrefix| + i] == url[i];
    assert forall i :: 0 <= i < |json| ==>
      json[i] == (if i < |TexturePrefix| then TexturePrefix[i]
                  else if i < |TexturePrefix| + |url| then url[i - |TexturePrefix|]
                  else TextureSuffix[i - |TexturePrefix| - |url|]);
  }

  /** For an ASCII URL of n characters the output has 4 * ceil((n + 32) / 3) characters, padding included. */
  lemma SkinUrlToBase64Length(url: string)
    requires Utf8.IsAscii(url)
    ensures SkinUrlToBase64([Some(url)]).Success?
    ensures |SkinUrlToBase64([Some(url)]).value| == 4 * ((|url| + 32 + 2) / 3)
  {
    TextureJsonAscii(url);
    Utf8.EncodeAscii(TextureJson(url));
  }

  /** The argument list skin_url_to_base64 declares: one required string named "input". */
  function SkinUrlToBase64Arguments(): (r: seq<FunctionArgument>)
    ensures |r| == 1 && r[0].name == "input" && r[0].required && r[0].kind == StringType
  {
    [FunctionArgument("input", "Input skin URL string", true, StringType)]
  }

  /** The argument list base64_to_skin_url declares: one required string named "input". */
  function Base64ToSkinUrlArguments(): (r: seq<FunctionArgument>)
    ensures |r| == 1 && r[0].name == "input" && r[0].required && r[0].kind == StringType
  {
    [FunctionArgument("input", "Input base64 string", true, StringType)]
  }

  ////////////////////////////////// Decoding //////////////////////////////////

  /** A parsed JSON element. */
  datatype Json =
    | JObject(members: map<string, Json>)
    | JArray(items: seq<Json>)
    | JString(text: string)
    | JNumber(digits: string)
    | JBool(flag: bool)
    | JNull

  /** JsonElement.getAsString: a primitive's text; a one-element array's element; anything else throws. */
  function GetAsString(j: Json): (r: Result<string, Exception>)
    ensures j.JString? ==> r == Success(j.text)
    ensures j.JObject? || j.JNull? ==> r == Failure(UnsupportedOperationException)
    decreases j
  {
    match j
    case JString(t) => Success(t)
    case JNumber(d) => Success(d)
    case JBool(b) => Success(if b then "true" else "false")
    case JArray(items) => if |items| == 1 then GetAsString(items[0]) else Failure(IllegalStateException)
    case JObject(_) => Failure(UnsupportedOperationException)
    case JNull => Failure(UnsupportedOperationException)
  }

  /** JsonObject.getAsJsonObject(name): null when absent, the object when it is one, a failed cast otherwise. */
  function MemberObject(members: map<string, Json>, name: string): (r: Result<Option<map<string, Json>>, Exception>)
    ensures name !in members ==> r == Success(None)
    ensures name in members && members[name].JObject? ==> r == Success(Some(members[name].members))
    ensures name in members && !members[name].JObject? ==> r == Failure(ClassCastException)
  {
    if name !in members then Success(None)
    else if members[name].JObject? then Success(Some(members[name].members))
    else Failure(ClassCastException)
  }

  /**
   * The field chain getAsJsonObject().getAsJsonObject("textures")
   * .getAsJsonObject("SKIN").get("url").getAsString(): a root that is not an
   * object throws IllegalStateException, a member of the wrong kind a
   * ClassCastException, and a missing member a NullPointerException one step later.
   */
  function SkinUrlOf(root: Json): (r: Result<string, Exception>)
  {
    if !root.JObject? then Failure(IllegalStateException)
    else
      match MemberObject(root.members, "textures")
      case Failure(e) => Failure(e)
      case Success(None) => Failure(NullPointerException)
      case Success(Some(textures)) =>
        match MemberObject(textures, "SKIN")
        case Failure(e) => Failure(e)
        case Success(None) => Failure(NullPointerException)
        case Success(Some(skin)) =>
          if "url" !in skin then Failure(NullPointerException) else GetAsString(skin["url"])
  }

  /** The element tree of the textures JSON for a URL. */
  function TextureTree(url: string): Json
  {
    JObject(map["textures" := JObject(map["SKIN" := JObject(map["url" := JString(url)])])])
  }

  /**
   * The chain succeeds exactly on an object holding an object "textures"
   * holding an object "SKIN" whose "url" reads as a string, and then returns that string.
   */
  lemma SkinUrlOfSucceeds(root: Json)
    ensures SkinUrlOf(root).Success? <==>
      root.JObject? && "textures" in root.members && root.members["textures"].JObject? &&
      "SKIN" in root.members["textures"].members && root.members["textures"].members["SKIN"].JObject? &&
      "url" in root.members["textures"].members["SKIN"].members &&
      GetAsString(root.members["textures"].members["SKIN"].members["url"]).Success?
    ensures SkinUrlOf(root).Success? ==>
      SkinUrlOf(root) == GetAsString(root.members["textures"].members["SKIN"].members["url"])
  {
  }

  /** The field chain reads the URL back out of the textures tree. */
  lemma SkinUrlOfTextureTree(url: string)
    ensures SkinUrlOf(TextureTree(url)) == Success(url)
  {
    var skin := map["url" := JString(url)];
    var textures := map["SKIN" := JObject(skin)];
    var root := map["textures" := JObject(textures)];
    assert TextureTree(url) == JObject(root);
    assert MemberObject(root, "textures") == Success(Some(textures));
    assert MemberObject(textures, "SKIN") == Success(Some(skin));
    assert "url" in skin && skin["url"] == JString(url);
  }

  /** The text a platform charset makes of bytes that are all ASCII: one character per byte. */
  function AsciiText(bytes: seq<Byte>): (r: string)
    ensures |r| == |bytes|
    ensures forall i :: 0 <= i < |bytes| && bytes[i] < 128 ==> r[i] as int == bytes[i]
    decreases |bytes|
  {
    if |bytes| == 0 then [] else [(if bytes[0] < 128 then bytes[0] as char else '?')] + AsciiText(bytes[1..])
  }

  /** Whether a charset decodes ASCII bytes as ASCII text, as every platform default charset does. */
  ghost predicate DecodesAscii(charset: seq<Byte> -> string)
  {
    forall bytes: seq<Byte> ::
      (forall i :: 0 <= i < |bytes| ==> bytes[i] < 128) ==> charset(bytes) == AsciiText(bytes)
  }

  /** Whether a URL can be placed in the JSON template without escaping. */
  predicate NeedsNoEscape(url: string)
  {
    forall i :: 0 <= i < |url| ==> url[i] != '"' && url[i] != '\\'
  }

  /** Whether a JSON parser reads the textures JSON of every such URL as its element tree. */
  ghost predicate ParsesTextureJson(parse: string -> Result<Json, Exception>)
  {
    forall url :: NeedsNoEscape(url) ==> parse(TextureJson(url)) == Success(TextureTree(url))
  }

  /**
   * Base64ToSkinUrlFunction.apply: decode the Base64 argument (malformed
   * input throws IllegalArgumentException), read the bytes with the default
   * charset, parse the JSON and follow the field chain.
   */
  function Base64ToSkinUrl(args: seq<Option<string>>, charset: seq<Byte> -> string,
                           parse: string -> Result<Json, Exception>): (r: Result<string, Exception>)
    ensures NonNull(args, 0).Failure? ==> r == Failure(InvalidFunctionArgument)
    ensures NonNull(args, 0).Success? && Base64.Decode(args[0].value).Failure? ==> r == Failure(IllegalArgumentException)
  {
    match NonNull(args, 0)
    case Failure(e) => Failure(e)
    case Success(encoded) =>
      match Base64.Decode(encoded)
      case Failure(e) => Failure(e)
      case Success(bytes) =>
        match parse(charset(bytes))
        case Failure(e) => Failure(e)
        case Success(root) => SkinUrlOf(root)
  }

  /** The ASCII text of an ASCII string's UTF-8 bytes is the string. */
  lemma AsciiTextOfEncoding(s: string)
    requires Utf8.IsAscii(s)
    ensures forall i :: 0 <= i < |Utf8.Encode(s)| ==> Utf8.Encode(s)[i] < 128
    ensures AsciiText(Utf8.Encode(s)) == s
  {
    Utf8.EncodeAscii(s);
  }

  /**
   * The round trip: base64_to_skin_url gives back the URL skin_url_to_base64
   * was given, for an ASCII URL that needs no JSON escaping, on a platform
   * whose default charset reads ASCII as ASCII.
   */
  lemma SkinUrlRoundTrip(url: string, charset: seq<Byte> -> string, parse: string -> Result<Json, Exception>)
    requires Utf8.IsAscii(url) && NeedsNoEscape(url)
    requires DecodesAscii(charset) && ParsesTextureJson(parse)
    ensures SkinUrlToBase64([Some(url)]).Success?
    ensures Base64ToSkinUrl([Some(SkinUrlToBase64([Some(url)]).value)], charset, parse) == Success(url)
  {
    var json := TextureJson(url);
    var bytes := Utf8.Encode(json);
    var encoded := Base64.Encode(bytes);
    assert SkinUrlToBase64([Some(url)]) == Success(encoded);
    assert NonNull([Some(encoded)], 0) == Success(encoded);
    Base64.DecodeEncode(bytes);
    TextureJsonAscii(url);
    AsciiTextOfEncoding(json);
    assert charset(bytes) == json;
    assert parse(json) == Success(TextureTree(url));
    SkinUrlOfTextureTree(url);
  }
}
