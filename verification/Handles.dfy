/** Handle ids: written and read back by the browser, split by the Go server, split again by the runner. */
module Handles {
  import opened Wrappers
  import opened Strings
  import opened Builder
  import opened Connections
  import opened EndToEnd

  datatype HandleKind = Image | Text | Any | Memory | AiModel | Handoffs | Tools | Guardrails

  function KindText(k: HandleKind): string {
    match k
    case Image => "image"
    case Text => "text"
    case Any => "any"
    case Memory => "memory"
    case AiModel => "ai-model"
    case Handoffs => "handoffs"
    case Tools => "tools"
    case Guardrails => "guardrails"
  }

  predicate Allowed(c: char) {
    'a' <= c <= 'z' || 'A' <= c <= 'Z' || '0' <= c <= '9' || c == '-'
  }

  function SanitizeString(s: string): (r: string)
    ensures forall c :: c in r <==> c in s && Allowed(c)
  {
    if s == "" then "" else (if Allowed(s[0]) then [s[0]] else "") + SanitizeString(s[1..])
  }

  /** By code point: the hyphen, the digits and the letters of ASCII. */
  lemma AllowedIs(c: char)
    ensures Allowed(c) <==> c as int == 45 || 48 <= c as int <= 57 || 65 <= c as int <= 90 || 97 <= c as int <= 122
  {}

  /** Each character is kept or dropped where it stands, whatever is around it. */
  lemma {:induction false} SanitizeKeepsPlaces(a: string, c: char, b: string)
    ensures SanitizeString("") == ""
    ensures SanitizeString(a + [c] + b) == SanitizeString(a) + (if Allowed(c) then [c] else "") + SanitizeString(b)
    decreases |a|
  {
    var whole := a + [c] + b;
    if a == "" {
      assert whole[0] == c && whole[1..] == b;
    } else {
      assert whole[0] == a[0] && whole[1..] == a[1..] + [c] + b;
      SanitizeKeepsPlaces(a[1..], c, b);
      Assoc(if Allowed(a[0]) then [a[0]] else "", SanitizeString(a[1..]) + (if Allowed(c) then [c] else ""), SanitizeString(b));
      Assoc(if Allowed(a[0]) then [a[0]] else "", SanitizeString(a[1..]), if Allowed(c) then [c] else "");
    }
  }

  /** `camel` stands for the camel-casing of the label. */
  function GenerateHandleId(camel: string -> string, k: HandleKind, name: string): string {
    KindText(k) + "__" + SanitizeString(camel(name))
  }

  datatype HandleId = HandleId(kind: string, name: string)

  datatype HandleError = InvalidHandle(id: string)

  /** The browser keeps the first two parts and rejects an id missing either. */
  function ParseHandleId(id: string): Result<HandleId, HandleError> {
    var parts := Split(id, "__");
    if parts[0] == "" || |parts| < 2 || parts[1] == "" then Err(InvalidHandle(id))
    else Ok(HandleId(parts[0], parts[1]))
  }

  /** The browser rejects an id without separator, with nothing before it, or with nothing up to the next one. */
  lemma RejectedIff(id: string)
    ensures ParseHandleId(id) == Err(InvalidHandle(id)) <==>
              match Find(id, "__")
              case None => true
              case Some(k) => k == 0 || id[k + 2..] == "" || "__" <= id[k + 2..]
    ensures ParseHandleId(id).Ok? ==>
              Find(id, "__").Some? && ParseHandleId(id).value.kind == id[..Find(id, "__").value]
  {
    if Find(id, "__").Some? {
      var rest := id[Find(id, "__").value + 2..];
      assert Split(id, "__")[1] == Split(rest, "__")[0];
      assert Split(rest, "__")[0] == "" <==> rest == "" || "__" <= rest;
    }
  }

  lemma KindIsPlain(k: HandleKind)
    ensures '_' !in KindText(k) && '.' !in KindText(k) && KindText(k) != ""
  {}

  lemma GeneratedParts(camel: string -> string, k: HandleKind, name: string)
    ensures ParseHandle(GenerateHandleId(camel, k, name)) == [KindText(k), SanitizeString(camel(name))]
  {
    KindIsPlain(k);
    SplitPair(KindText(k), "__", SanitizeString(camel(name)));
  }

  /** Reading a generated id back gives its parts exactly when the sanitised label is not empty. */
  lemma RoundTripIffNamed(camel: string -> string, k: HandleKind, name: string)
    ensures ParseHandleId(GenerateHandleId(camel, k, name)) == Ok(HandleId(KindText(k), SanitizeString(camel(name))))
            <==> SanitizeString(camel(name)) != ""
    ensures ParseHandleId(GenerateHandleId(camel, k, name)).Ok? <==> SanitizeString(camel(name)) != ""
  {
    GeneratedParts(camel, k, name);
    KindIsPlain(k);
  }

  /** The server always accepts a generated id and takes the same two parts, even where the browser rejects. */
  lemma ServerAgrees(camel: string -> string, k: HandleKind, name: string)
    ensures var id := GenerateHandleId(camel, k, name);
            WellFormed(id) && HandleType(id) == KindText(k) && HandleName(id) == SanitizeString(camel(name))
  {
    GeneratedParts(camel, k, name);
  }

  /** A generated id has one reading: different types or sanitised labels give different ids. */
  lemma GeneratedIdsDiffer(camel: string -> string, k: HandleKind, name: string, k': HandleKind, name': string)
    ensures GenerateHandleId(camel, k, name) == GenerateHandleId(camel, k', name') <==>
              k == k' && SanitizeString(camel(name)) == SanitizeString(camel(name'))
  {
    GeneratedParts(camel, k, name);
    GeneratedParts(camel, k', name');
    KindTextDiffers(k, k');
  }

  lemma KindTextDiffers(k: HandleKind, k': HandleKind)
    ensures KindText(k) == KindText(k') ==> k == k'
  {
    if KindText(k) == KindText(k') {
      assert |KindText(k)| == |KindText(k')| && KindText(k)[0] == KindText(k')[0] && KindText(k)[1] == KindText(k')[1];
    }
  }

  /** The server's prefix test on the raw text tells exactly the attachment types apart from data types. */
  lemma ReservedIffAttachment(camel: string -> string, k: HandleKind, name: string)
    ensures Reserved(GenerateHandleId(camel, k, name)) <==> k in {Memory, Tools, AiModel}
  {
    var id := GenerateHandleId(camel, k, name);
    assert id == KindText(k) + ("__" + SanitizeString(camel(name)));
    if k in {Memory, Tools, AiModel} {
      assert KindText(k) + "__" <= id;
    } else {
      assert id[0] == KindText(k)[0] && id[1] == KindText(k)[1] && id[2] == (KindText(k) + "__")[2];
      assert MEMORY_PREFIX[0] == 'm' && TOOLS_PREFIX[0] == 't' && TOOLS_PREFIX[1] == 'o' && AI_TYPE_PREFIX[1] == 'i';
    }
  }

  /**
   The name survives the runner's second split: an edge into a generated handle of a node whose id has no dot
   is read as promised exactly when the sanitised label is not empty.
   */
  lemma NameSurvivesIffNamed(camel: string -> string, k: HandleKind, name: string, e: BuilderEdge, input: string)
    requires e.targetHandle == GenerateHandleId(camel, k, name) && e.target != "" && '.' !in e.target
    ensures WellFormed(e.targetHandle)
    ensures (forall outputs :: ReadAsPromised(outputs, input, e)) <==> SanitizeString(camel(name)) != ""
  {
    ServerAgrees(camel, k, name);
    ReadAsPromisedIffClean(input, e);
  }

  /** An id the browser accepts is one the server accepts exactly when the browser has dropped nothing of it. */
  lemma ServerAcceptsIffNothingDropped(id: string)
    requires ParseHandleId(id).Ok?
    ensures WellFormed(id) <==> id == ParseHandleId(id).value.kind + "__" + ParseHandleId(id).value.name
  {
    var parts := Split(id, "__");
    JoinSplit(id, "__");
    JoinCons(parts[0], parts[1..], "__");
    assert [parts[0]] + parts[1..] == parts;
    if |parts| > 2 {
      JoinCons(parts[1], parts[2..], "__");
      assert [parts[1]] + parts[2..] == parts[1..];
    }
  }

  /** A label that shows it: "_" leaves no name, so the browser rejects an id that the server accepts. */
  lemma UnderscoreHasNoName(camel: string -> string, k: HandleKind)
    requires camel("_") == "_"
    ensures ParseHandleId(GenerateHandleId(camel, k, "_")).Err?
    ensures WellFormed(GenerateHandleId(camel, k, "_")) && HandleName(GenerateHandleId(camel, k, "_")) == ""
  {
    assert SanitizeString("_") == "";
    RoundTripIffNamed(camel, k, "_");
    ServerAgrees(camel, k, "_");
  }
}
