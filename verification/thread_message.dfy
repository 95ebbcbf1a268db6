/** The thread-message entities and their JSON serialisers. The C++ keeps the
    `Content` and `Annotation` hierarchies behind abstract bases; here each is
    a sum type with one variant per concrete subclass. Every serialiser is
    paired with a decoder that reads its output back, and the pair is proved
    lossless. */
module ThreadMessage {
  import opened Wrappers
  import opened JsonValue

  newtype u32 = x: int | 0 <= x < 0x1_0000_0000
  newtype u64 = x: int | 0 <= x < 0x1_0000_0000_0000_0000

  // ---------------------------------------------------------------------------
  // Reading fields back

  function Field(j: Json, key: string): Option<Json> {
    if j.JObject? && key in j.fields then Some(j.fields[key]) else None
  }

  /** A `uint32_t` member value; anything else does not read back. */
  function U32FromJson(j: Json): Option<u32> {
    if j.JUInt? && j.n < 0x1_0000_0000 then Some(j.n as u32) else None
  }

  /** A string member value; anything else does not read back. */
  function StringFromJson(j: Json): Option<string> {
    if j.JString? then Some(j.s) else None
  }

  function StringField(j: Json, key: string): Option<string> {
    if Field(j, key).Some? then StringFromJson(Field(j, key).value) else None
  }

  function U32Field(j: Json, key: string): Option<u32> {
    if Field(j, key).Some? then U32FromJson(Field(j, key).value) else None
  }

  // ---------------------------------------------------------------------------
  // Status and role

  /** The status of a message. */
  datatype Status = InProgress | Incomplete | Completed

  function StatusToString(s: Status): (r: string)
    ensures StatusFromString(r) == Some(s)
  {
    match s
    case InProgress => "in_progress"
    case Incomplete => "incomplete"
    case Completed => "completed"
  }

  function StatusFromString(t: string): Option<Status> {
    if t == "in_progress" then Some(InProgress)
    else if t == "incomplete" then Some(Incomplete)
    else if t == "completed" then Some(Completed)
    else None
  }

  /** Distinct statuses print differently. */
  lemma StatusToStringInjective(a: Status, b: Status)
    requires StatusToString(a) == StatusToString(b)
    ensures a == b
  {
    assert StatusFromString(StatusToString(a)) == Some(a);
  }

  /** The entity that produced a message. */
  datatype Role = User | Assistant

  function RoleToString(role: Role): (r: string)
    ensures RoleFromString(r) == Some(role)
  {
    match role
    case User => "user"
    case Assistant => "assistant"
  }

  function RoleFromString(t: string): Option<Role> {
    if t == "user" then Some(User) else if t == "assistant" then Some(Assistant) else None
  }

  // ---------------------------------------------------------------------------
  // Incomplete details

  datatype IncompleteDetail = IncompleteDetail(reason: string)

  function IncompleteDetailToJson(d: IncompleteDetail): (r: Json)
    ensures r.JObject? && r.fields.Keys == {"reason"}
    ensures IncompleteDetailFromJson(r) == Some(d)
  {
    Object1("reason", JString(d.reason))
  }

  function IncompleteDetailFromJson(j: Json): Option<IncompleteDetail> {
    match StringField(j, "reason")
    case Some(reason) => Some(IncompleteDetail(reason))
    case None => None
  }

  // ---------------------------------------------------------------------------
  // Content

  datatype ImageFile = ImageFile(fileId: string, detail: string)
  datatype ImageUrl = ImageUrl(url: string, detail: string)

  /** A content part. `ImageFileContent` and `Refusal` have a fixed type;
      `ImageUrlContent` takes its type from its constructor. */
  datatype Content =
    | ImageFileContent(imageFile: ImageFile)
    | ImageUrlContent(kind: string, imageUrl: ImageUrl)
    | Refusal(refusal: string)

  function ContentType(c: Content): string {
    match c
    case ImageFileContent(_) => "image_file"
    case ImageUrlContent(kind, _) => kind
    case Refusal(_) => "refusal"
  }

  /** `{"file_id": .., "detail": ..}` and its reverse, shared by both image parts. */
  function ImagePart(first: string, firstValue: string, detail: string): Json {
    JObject(map[first := JString(firstValue), "detail" := JString(detail)])
  }

  /** `ImageFileContent::ToJson`. */
  function ImageFileContentToJson(f: ImageFile): (r: Json)
    ensures r.JObject? && r.fields.Keys == {"type", "image_file"}
    ensures r.fields["type"] == JString("image_file")
    ensures StringField(r.fields["image_file"], "file_id") == Some(f.fileId)
    ensures StringField(r.fields["image_file"], "detail") == Some(f.detail)
    ensures ContentFromJson(r) == Some(ImageFileContent(f))
  {
    JObject(map["type" := JString("image_file"), "image_file" := ImagePart("file_id", f.fileId, f.detail)])
  }

  /** `ImageUrlContent::ToJson`: the type is the one the part was built with. */
  function ImageUrlContentToJson(kind: string, u: ImageUrl): (r: Json)
    ensures r.JObject? && r.fields.Keys == {"type", "image_url"}
    ensures r.fields["type"] == JString(kind)
    ensures StringField(r.fields["image_url"], "url") == Some(u.url)
    ensures StringField(r.fields["image_url"], "detail") == Some(u.detail)
    ensures ContentFromJson(r) == Some(ImageUrlContent(kind, u))
  {
    JObject(map["type" := JString(kind), "image_url" := ImagePart("url", u.url, u.detail)])
  }

  /** `Refusal::ToJson`. */
  function RefusalToJson(text: string): (r: Json)
    ensures r.JObject? && r.fields.Keys == {"type", "refusal"}
    ensures r.fields["type"] == JString("refusal")
    ensures ContentFromJson(r) == Some(Refusal(text))
  {
    JObject(map["type" := JString("refusal"), "refusal" := JString(text)])
  }

  /** The serialiser of whichever part `c` is. */
  function ContentToJson(c: Content): (r: Json)
    ensures r.JObject? && "type" in r.fields && r.fields["type"] == JString(ContentType(c))
    ensures ContentFromJson(r) == Some(c)
  {
    match c
    case ImageFileContent(f) => ImageFileContentToJson(f)
    case ImageUrlContent(kind, u) => ImageUrlContentToJson(kind, u)
    case Refusal(text) => RefusalToJson(text)
  }

  function ContentFromJson(j: Json): Option<Content> {
    match (StringField(j, "type"), Field(j, "image_file"), Field(j, "image_url"), Field(j, "refusal"))
    case (Some(kind), Some(f), None, None) =>
      if kind != "image_file" then None
      else (match (StringField(f, "file_id"), StringField(f, "detail"))
        case (Some(id), Some(detail)) => Some(ImageFileContent(ImageFile(id, detail)))
        case _ => None)
    case (Some(kind), None, Some(u), None) =>
      (match (StringField(u, "url"), StringField(u, "detail"))
       case (Some(url), Some(detail)) => Some(ImageUrlContent(kind, ImageUrl(url, detail)))
       case _ => None)
    case (Some(kind), None, None, Some(JString(text))) =>
      if kind == "refusal" then Some(Refusal(text)) else None
    case _ => None
  }

  // ---------------------------------------------------------------------------
  // Annotations and text

  /** A text annotation; its type is fixed by the variant. */
  datatype Annotation =
    | FileCitation(text: string, startIndex: u32, endIndex: u32, fileId: string)
    | FilePath(text: string, startIndex: u32, endIndex: u32, fileId: string)

  function AnnotationType(a: Annotation): string {
    if a.FileCitation? then "file_citation" else "file_path"
  }

  function AnnotationToJson(a: Annotation): (r: Json)
    ensures r.JObject?
    ensures r.fields.Keys == {"text", "type", AnnotationType(a), "start_index", "end_index"}
    ensures r.fields["type"] == JString(AnnotationType(a))
    ensures r.fields[AnnotationType(a)] == Object1("file_id", JString(a.fileId))
    ensures AnnotationFromJson(r) == Some(a)
  {
    JObject(map["text" := JString(a.text), "type" := JString(AnnotationType(a)),
                AnnotationType(a) := Object1("file_id", JString(a.fileId)),
                "start_index" := JUInt(a.startIndex as int), "end_index" := JUInt(a.endIndex as int)])
  }

  function AnnotationFromJson(j: Json): Option<Annotation> {
    match (StringField(j, "text"), StringField(j, "type"), U32Field(j, "start_index"), U32Field(j, "end_index"))
    case (Some(text), Some(kind), Some(start), Some(end)) =>
      if kind != "file_citation" && kind != "file_path" then None
      else (match Field(j, kind)
        case Some(nested) =>
          (match StringField(nested, "file_id")
           case Some(fileId) =>
             Some(if kind == "file_citation" then FileCitation(text, start, end, fileId)
                  else FilePath(text, start, end, fileId))
           case None => None)
        case None => None)
    case _ => None
  }

  /** The text of a message content part and its annotations. */
  datatype Text = Text(value: string, annotations: seq<Annotation>)

  function TextToJson(t: Text): (r: Json)
    ensures r.JObject? && r.fields.Keys == {"value", "annotations"}
    ensures r.fields["value"] == JString(t.value)
    ensures r.fields["annotations"].JArray?
    ensures |r.fields["annotations"].items| == |t.annotations|
    ensures forall k :: 0 <= k < |t.annotations| ==>
              r.fields["annotations"].items[k] == AnnotationToJson(t.annotations[k])
  {
    JObject(map["value" := JString(t.value), "annotations" := JArray(Elements(t.annotations, AnnotationToJson))])
  }

  function TextFromJson(j: Json): Option<Text> {
    match (StringField(j, "value"), Field(j, "annotations"))
    case (Some(value), Some(JArray(items))) =>
      (match DecodeAll(items, AnnotationFromJson)
       case Some(annotations) => Some(Text(value, annotations))
       case None => None)
    case _ => None
  }

  lemma TextRoundTrip(t: Text)
    ensures TextFromJson(TextToJson(t)) == Some(t)
  {
    DecodeAllElements(t.annotations, AnnotationToJson, AnnotationFromJson);
  }

  // ---------------------------------------------------------------------------
  // Attachments

  /** A tool a file is attached to; its type is the whole of it. */
  datatype Tool = Tool(kind: string)

  /** The two tools the source declares as subtypes of `Tool`. */
  const CodeInterpreter: Tool := Tool("code_interpreter")
  const FileSearch: Tool := Tool("file_search")

  datatype Attachment = Attachment(fileId: string, tools: seq<Tool>)

  function ToolToJson(t: Tool): Json {
    Object1("type", JString(t.kind))
  }

  function ToolFromJson(j: Json): Option<Tool> {
    match StringField(j, "type")
    case Some(kind) => Some(Tool(kind))
    case None => None
  }

  function AttachmentToJson(a: Attachment): (r: Json)
    ensures r.JObject? && r.fields.Keys == {"file_id", "tools"}
    ensures r.fields["file_id"] == JString(a.fileId)
    ensures r.fields["tools"].JArray? && |r.fields["tools"].items| == |a.tools|
    ensures forall k :: 0 <= k < |a.tools| ==>
              r.fields["tools"].items[k] == Object1("type", JString(a.tools[k].kind))
  {
    JObject(map["file_id" := JString(a.fileId), "tools" := JArray(Elements(a.tools, ToolToJson))])
  }

  function AttachmentFromJson(j: Json): Option<Attachment> {
    match (StringField(j, "file_id"), Field(j, "tools"))
    case (Some(fileId), Some(JArray(items))) =>
      (match DecodeAll(items, ToolFromJson)
       case Some(tools) => Some(Attachment(fileId, tools))
       case None => None)
    case _ => None
  }

  lemma AttachmentRoundTrip(a: Attachment)
    ensures AttachmentFromJson(AttachmentToJson(a)) == Some(a)
  {
    DecodeAllElements(a.tools, ToolToJson, ToolFromJson);
  }

  /** A file attached to both standard tools lists them by their type names,
      in order, and the two read back as different tools. */
  lemma StandardToolsWritten(fileId: string)
    ensures AttachmentToJson(Attachment(fileId, [CodeInterpreter, FileSearch])).fields["tools"]
              == JArray([Object1("type", JString("code_interpreter")), Object1("type", JString("file_search"))])
    ensures AttachmentFromJson(AttachmentToJson(Attachment(fileId, [CodeInterpreter, FileSearch])))
              == Some(Attachment(fileId, [CodeInterpreter, FileSearch]))
    ensures CodeInterpreter != FileSearch
  {
    var a := Attachment(fileId, [CodeInterpreter, FileSearch]);
    AttachmentRoundTrip(a);
    var items := AttachmentToJson(a).fields["tools"].items;
    assert items == [Object1("type", JString("code_interpreter")), Object1("type", JString("file_search"))];
  }

  // ---------------------------------------------------------------------------
  // Metadata

  /** A metadata value: the four alternatives of the source's variant. */
  datatype MetadataValue =
    | MetaString(str: string)
    | MetaBool(flag: bool)
    | MetaUInt(num: u64)
    | MetaDouble(dbl: Double)

  function MetadataValueToJson(v: MetadataValue): (r: Json)
    ensures v.MetaString? <==> r.JString?
    ensures v.MetaBool? <==> r.JBool?
    ensures v.MetaUInt? <==> r.JUInt?
    ensures v.MetaDouble? <==> r.JReal?
    ensures MetadataValueFromJson(r) == Some(v)
  {
    match v
    case MetaString(s) => JString(s)
    case MetaBool(b) => JBool(b)
    case MetaUInt(n) => JUInt(n as int)
    case MetaDouble(d) => JReal(d)
  }

  function MetadataValueFromJson(j: Json): Option<MetadataValue> {
    match j
    case JString(s) => Some(MetaString(s))
    case JBool(b) => Some(MetaBool(b))
    case JUInt(n) => if n < 0x1_0000_0000_0000_0000 then Some(MetaUInt(n as u64)) else None
    case JReal(d) => Some(MetaDouble(d))
    case _ => None
  }

  function MetadataToJson(metadata: map<string, MetadataValue>): (r: Json)
    ensures r.JObject? && r.fields.Keys == metadata.Keys
    ensures forall key :: key in metadata ==> MetadataValueFromJson(r.fields[key]) == Some(metadata[key])
  {
    JObject(map key | key in metadata :: MetadataValueToJson(metadata[key]))
  }

  function MetadataFromJson(j: Json): Option<map<string, MetadataValue>> {
    if j.JObject? && forall key :: key in j.fields ==> MetadataValueFromJson(j.fields[key]).Some?
    then Some(map key | key in j.fields :: MetadataValueFromJson(j.fields[key]).value)
    else None
  }

  lemma MetadataRoundTrip(metadata: map<string, MetadataValue>)
    ensures MetadataFromJson(MetadataToJson(metadata)) == Some(metadata)
  {
    var j := MetadataToJson(metadata);
    var back := map key | key in j.fields :: MetadataValueFromJson(j.fields[key]).value;
    assert back == metadata;
  }

  // ---------------------------------------------------------------------------
  // Messages

  /** A message within a thread. `objectType` is the `object` member, which
      a new message sets to "thread.message". */
  datatype Message = Message(
    id: string,
    objectType: string,
    createdAt: u32,
    threadId: string,
    status: Status,
    incompleteDetails: Option<IncompleteDetail>,
    completedAt: Option<u32>,
    incompleteAt: Option<u32>,
    role: Role,
    content: seq<Content>,
    assistantId: Option<string>,
    runId: Option<string>,
    attachments: Option<seq<Attachment>>,
    metadata: map<string, MetadataValue>)

  /** The members of a serialised message, in the order the source writes
      them. */
  datatype MessageKey =
    | IdKey | ObjectKey | CreatedAtKey | ThreadIdKey | StatusKey
    | IncompleteDetailsKey | CompletedAtKey | IncompleteAtKey | RoleKey | ContentKey
    | AssistantIdKey | RunIdKey | AttachmentsKey | MetadataKey

  /** The name a member is written under. */
  function KeyName(k: MessageKey): string {
    match k
    case IdKey => "id"
    case ObjectKey => "object"
    case CreatedAtKey => "created_at"
    case ThreadIdKey => "thread_id"
    case StatusKey => "status"
    case IncompleteDetailsKey => "incomplete_details"
    case CompletedAtKey => "completed_at"
    case IncompleteAtKey => "incomplete_at"
    case RoleKey => "role"
    case ContentKey => "content"
    case AssistantIdKey => "assistant_id"
    case RunIdKey => "run_id"
    case AttachmentsKey => "attachments"
    case MetadataKey => "metadata"
  }

  /** The member a name denotes, if any. */
  function KeyFromName(name: string): Option<MessageKey> {
    if name == "id" then Some(IdKey)
    else if name == "object" then Some(ObjectKey)
    else if name == "created_at" then Some(CreatedAtKey)
    else if name == "thread_id" then Some(ThreadIdKey)
    else if name == "status" then Some(StatusKey)
    else if name == "incomplete_details" then Some(IncompleteDetailsKey)
    else if name == "completed_at" then Some(CompletedAtKey)
    else if name == "incomplete_at" then Some(IncompleteAtKey)
    else if name == "role" then Some(RoleKey)
    else if name == "content" then Some(ContentKey)
    else if name == "assistant_id" then Some(AssistantIdKey)
    else if name == "run_id" then Some(RunIdKey)
    else if name == "attachments" then Some(AttachmentsKey)
    else if name == "metadata" then Some(MetadataKey)
    else None
  }

  /** Every member has its own name. */
  lemma KeyNameInjective()
    ensures forall a: MessageKey, b: MessageKey :: KeyName(a) == KeyName(b) ==> a == b
  {
    forall k: MessageKey ensures KeyFromName(KeyName(k)) == Some(k) {
      match k
      case IdKey =>
      case ObjectKey =>
      case CreatedAtKey =>
      case ThreadIdKey =>
      case StatusKey =>
      case IncompleteDetailsKey =>
      case CompletedAtKey =>
      case IncompleteAtKey =>
      case RoleKey =>
      case ContentKey =>
      case AssistantIdKey =>
      case RunIdKey =>
      case AttachmentsKey =>
      case MetadataKey =>
    }
  }

  /** The members written whatever the optionals hold. */
  predicate IsRequired(k: MessageKey) {
    !(k.IncompleteDetailsKey? || k.CompletedAtKey? || k.IncompleteAtKey?
      || k.AssistantIdKey? || k.RunIdKey? || k.AttachmentsKey?)
  }

  function U32ToJson(n: u32): Json {
    JUInt(n as int)
  }

  function StringToJson(s: string): Json {
    JString(s)
  }

  function AttachmentsToJson(attachments: seq<Attachment>): Json {
    JArray(Elements(attachments, AttachmentToJson))
  }

  /** `f(value)` when the optional is set. */
  function IfSet<T>(value: Option<T>, f: T -> Json): (r: Option<Json>)
    ensures r.Some? <==> value.Some?
    ensures value.Some? ==> r.value == f(value.value)
  {
    match value
    case Some(v) => Some(f(v))
    case None => None
  }

  /** What `Message::ToJson` writes under a member's name; None where it
      writes nothing because the optional is unset. */
  function MemberValue(m: Message, k: MessageKey): Option<Json> {
    match k
    case IdKey => Some(JString(m.id))
    case ObjectKey => Some(JString(m.objectType))
    case CreatedAtKey => Some(U32ToJson(m.createdAt))
    case ThreadIdKey => Some(JString(m.threadId))
    case StatusKey => Some(JString(StatusToString(m.status)))
    case IncompleteDetailsKey => IfSet(m.incompleteDetails, IncompleteDetailToJson)
    case CompletedAtKey => IfSet(m.completedAt, U32ToJson)
    case IncompleteAtKey => IfSet(m.incompleteAt, U32ToJson)
    case RoleKey => Some(JString(RoleToString(m.role)))
    case ContentKey => Some(JArray(Elements(m.content, ContentToJson)))
    case AssistantIdKey => IfSet(m.assistantId, StringToJson)
    case RunIdKey => IfSet(m.runId, StringToJson)
    case AttachmentsKey => IfSet(m.attachments, AttachmentsToJson)
    case MetadataKey => Some(MetadataToJson(m.metadata))
  }

  /** The order in which `Message::ToJson` assigns the members. */
  const MessageKeyOrder: seq<MessageKey> :=
    [IdKey, ObjectKey, CreatedAtKey, ThreadIdKey, StatusKey,
     IncompleteDetailsKey, CompletedAtKey, IncompleteAtKey, RoleKey, ContentKey,
     AssistantIdKey, RunIdKey, AttachmentsKey, MetadataKey]

  /** Every member has its place in the assignment order. */
  lemma MessageKeyOrderComplete()
    ensures forall k: MessageKey :: k in MessageKeyOrder
  {
    forall k: MessageKey ensures k in MessageKeyOrder {
      match k
      case IdKey => assert MessageKeyOrder[0] == k;
      case ObjectKey => assert MessageKeyOrder[1] == k;
      case CreatedAtKey => assert MessageKeyOrder[2] == k;
      case ThreadIdKey => assert MessageKeyOrder[3] == k;
      case StatusKey => assert MessageKeyOrder[4] == k;
      case IncompleteDetailsKey => assert MessageKeyOrder[5] == k;
      case CompletedAtKey => assert MessageKeyOrder[6] == k;
      case IncompleteAtKey => assert MessageKeyOrder[7] == k;
      case RoleKey => assert MessageKeyOrder[8] == k;
      case ContentKey => assert MessageKeyOrder[9] == k;
      case AssistantIdKey => assert MessageKeyOrder[10] == k;
      case RunIdKey => assert MessageKeyOrder[11] == k;
      case AttachmentsKey => assert MessageKeyOrder[12] == k;
      case MetadataKey => assert MessageKeyOrder[13] == k;
    }
  }

  /** Assigns the members `keys` names, each one `MemberValue` writes, one
      after the other. */
  function AssignMembers(m: Message, keys: seq<MessageKey>): (r: map<string, Json>)
    ensures forall k :: KeyName(k) in r <==> k in keys && MemberValue(m, k).Some?
    ensures forall k :: KeyName(k) in r ==> r[KeyName(k)] == MemberValue(m, k).value
    ensures forall name :: name in r ==> exists k :: k in keys && KeyName(k) == name
    decreases |keys|
  {
    if keys == [] then map[]
    else
      var earlier := AssignMembers(m, keys[..|keys| - 1]);
      var last := keys[|keys| - 1];
      KeyNameInjective();
      match MemberValue(m, last)
      case Some(v) => earlier[KeyName(last) := v]
      case None => earlier
  }

  /** `Message::ToJson`: the object holding, under its name, every member
      `MemberValue` writes, and nothing else. */
  function MessageToJson(m: Message): (r: Json)
    ensures r.JObject?
    ensures forall k :: KeyName(k) in r.fields <==> MemberValue(m, k).Some?
    ensures forall k :: KeyName(k) in r.fields ==> r.fields[KeyName(k)] == MemberValue(m, k).value
    ensures forall name :: name in r.fields ==> exists k :: KeyName(k) == name
  {
    MessageKeyOrderComplete();
    JObject(AssignMembers(m, MessageKeyOrder))
  }

  /** `j` is an object holding, under each member's name, exactly what
      `MessageToJson` writes for `m`. This is all that reading a member back
      needs; the lemmas below reason about such a `j` rather than about
      `MessageToJson(m)` itself, which keeps the serialiser's definition out
      of their proofs. */
  predicate HoldsMembers(j: Json, m: Message) {
    j.JObject? && forall k :: Field(j, KeyName(k)) == MemberValue(m, k)
  }

  /** `j` has no member other than the message's fourteen. */
  predicate OnlyMembers(j: Json) {
    j.JObject? && forall name :: name in j.fields ==> exists k :: KeyName(k) == name
  }

  /** `j` is the serialised form of `m`: the members as written, and nothing
      else. */
  predicate Serialises(j: Json, m: Message) {
    HoldsMembers(j, m) && OnlyMembers(j)
  }

  /** At most one object serialises a given message. */
  lemma SerialisedFormIsUnique(j1: Json, j2: Json, m: Message)
    requires Serialises(j1, m) && Serialises(j2, m)
    ensures j1 == j2
  {
    forall name | name in j1.fields
      ensures name in j2.fields && j1.fields[name] == j2.fields[name]
    {
      var k :| KeyName(k) == name;
      assert Field(j1, KeyName(k)) == MemberValue(m, k) == Field(j2, KeyName(k));
    }
    forall name | name in j2.fields ensures name in j1.fields {
      var k :| KeyName(k) == name;
      assert Field(j2, KeyName(k)) == MemberValue(m, k) == Field(j1, KeyName(k));
    }
    assert j1.fields == j2.fields;
  }

  /** The serialiser's output is such an object. */
  lemma MessageToJsonSerialises(m: Message)
    ensures Serialises(MessageToJson(m), m)
  {
  }

  /** The required members are always written. */
  lemma RequiredMembersPresent(j: Json, m: Message)
    requires HoldsMembers(j, m)
    ensures forall k :: IsRequired(k) ==> KeyName(k) in j.fields
  {
    forall k | IsRequired(k) ensures KeyName(k) in j.fields {
      assert Field(j, KeyName(k)) == MemberValue(m, k);
    }
  }

  /** A lifecycle optional is written exactly when it is set. */
  lemma LifecycleMembersPresent(j: Json, m: Message)
    requires HoldsMembers(j, m)
    ensures KeyName(IncompleteDetailsKey) in j.fields <==> m.incompleteDetails.Some?
    ensures KeyName(CompletedAtKey) in j.fields <==> m.completedAt.Some?
    ensures KeyName(IncompleteAtKey) in j.fields <==> m.incompleteAt.Some?
  {
    assert Field(j, KeyName(IncompleteDetailsKey)) == MemberValue(m, IncompleteDetailsKey);
    assert Field(j, KeyName(CompletedAtKey)) == MemberValue(m, CompletedAtKey);
    assert Field(j, KeyName(IncompleteAtKey)) == MemberValue(m, IncompleteAtKey);
  }

  /** An optional naming the message's origin is written exactly when it is
      set. */
  lemma OriginMembersPresent(j: Json, m: Message)
    requires HoldsMembers(j, m)
    ensures KeyName(AssistantIdKey) in j.fields <==> m.assistantId.Some?
    ensures KeyName(RunIdKey) in j.fields <==> m.runId.Some?
    ensures KeyName(AttachmentsKey) in j.fields <==> m.attachments.Some?
  {
    assert Field(j, KeyName(AssistantIdKey)) == MemberValue(m, AssistantIdKey);
    assert Field(j, KeyName(RunIdKey)) == MemberValue(m, RunIdKey);
    assert Field(j, KeyName(AttachmentsKey)) == MemberValue(m, AttachmentsKey);
  }

  /** The serialiser always writes the required members, and an optional
      member exactly when it is set. */
  lemma MessageMembersPresent(m: Message)
    ensures forall k :: IsRequired(k) ==> KeyName(k) in MessageToJson(m).fields
    ensures KeyName(IncompleteDetailsKey) in MessageToJson(m).fields <==> m.incompleteDetails.Some?
    ensures KeyName(CompletedAtKey) in MessageToJson(m).fields <==> m.completedAt.Some?
    ensures KeyName(IncompleteAtKey) in MessageToJson(m).fields <==> m.incompleteAt.Some?
    ensures KeyName(AssistantIdKey) in MessageToJson(m).fields <==> m.assistantId.Some?
    ensures KeyName(RunIdKey) in MessageToJson(m).fields <==> m.runId.Some?
    ensures KeyName(AttachmentsKey) in MessageToJson(m).fields <==> m.attachments.Some?
  {
    MessageToJsonSerialises(m);
    RequiredMembersPresent(MessageToJson(m), m);
    LifecycleMembersPresent(MessageToJson(m), m);
    OriginMembersPresent(MessageToJson(m), m);
  }

  /** The status and role members hold their names; the `content` member
      holds one element per part, in order, each the part's own JSON; the
      `metadata` member holds one member per key of the map. */
  lemma BodyMembersWritten(j: Json, m: Message)
    requires HoldsMembers(j, m)
    ensures Field(j, KeyName(StatusKey)) == Some(JString(StatusToString(m.status)))
    ensures Field(j, KeyName(RoleKey)) == Some(JString(RoleToString(m.role)))
    ensures Field(j, KeyName(ContentKey)).Some? && Field(j, KeyName(ContentKey)).value.JArray?
    ensures |Field(j, KeyName(ContentKey)).value.items| == |m.content|
    ensures forall k :: 0 <= k < |m.content| ==> Field(j, KeyName(ContentKey)).value.items[k] == ContentToJson(m.content[k])
    ensures Field(j, KeyName(MetadataKey)).Some? && Field(j, KeyName(MetadataKey)).value.JObject?
    ensures Field(j, KeyName(MetadataKey)).value.fields.Keys == m.metadata.Keys
  {
    assert Field(j, KeyName(StatusKey)) == MemberValue(m, StatusKey);
    assert Field(j, KeyName(RoleKey)) == MemberValue(m, RoleKey);
    assert Field(j, KeyName(ContentKey)) == MemberValue(m, ContentKey);
    assert Field(j, KeyName(MetadataKey)) == MemberValue(m, MetadataKey);
  }

  /** An optional member: absent is None, present must decode. */
  function OptionalField<T>(j: Json, key: string, dec: Json -> Option<T>): Option<Option<T>> {
    match Field(j, key)
    case None => Some(None)
    case Some(v) =>
      match dec(v)
      case Some(x) => Some(Some(x))
      case None => None
  }

  function AttachmentsFromJson(j: Json): Option<seq<Attachment>> {
    if j.JArray? then DecodeAll(j.items, AttachmentFromJson) else None
  }

  function ContentsFromJson(j: Json): Option<seq<Content>> {
    if j.JArray? then DecodeAll(j.items, ContentFromJson) else None
  }

  /** Reads a serialised message back. */
  function MessageFromJson(j: Json): Option<Message> {
    var id := StringField(j, KeyName(IdKey));
    var objectType := StringField(j, KeyName(ObjectKey));
    var createdAt := U32Field(j, KeyName(CreatedAtKey));
    var threadId := StringField(j, KeyName(ThreadIdKey));
    var status := if StringField(j, KeyName(StatusKey)).Some? then StatusFromString(StringField(j, KeyName(StatusKey)).value) else None;
    var role := if StringField(j, KeyName(RoleKey)).Some? then RoleFromString(StringField(j, KeyName(RoleKey)).value) else None;
    var content := if Field(j, KeyName(ContentKey)).Some? then ContentsFromJson(Field(j, KeyName(ContentKey)).value) else None;
    var metadata := if Field(j, KeyName(MetadataKey)).Some? then MetadataFromJson(Field(j, KeyName(MetadataKey)).value) else None;
    var incompleteDetails := OptionalField(j, KeyName(IncompleteDetailsKey), IncompleteDetailFromJson);
    var completedAt := OptionalField(j, KeyName(CompletedAtKey), U32FromJson);
    var incompleteAt := OptionalField(j, KeyName(IncompleteAtKey), U32FromJson);
    var assistantId := OptionalField(j, KeyName(AssistantIdKey), StringFromJson);
    var runId := OptionalField(j, KeyName(RunIdKey), StringFromJson);
    var attachments := OptionalField(j, KeyName(AttachmentsKey), AttachmentsFromJson);
    if && id.Some? && objectType.Some? && createdAt.Some? && threadId.Some? && status.Some?
       && role.Some? && content.Some? && metadata.Some? && incompleteDetails.Some?
       && completedAt.Some? && incompleteAt.Some? && assistantId.Some? && runId.Some? && attachments.Some?
    then Some(Message(id.value, objectType.value, createdAt.value, threadId.value, status.value,
                      incompleteDetails.value, completedAt.value, incompleteAt.value, role.value,
                      content.value, assistantId.value, runId.value, attachments.value, metadata.value))
    else None
  }

  /** The identifying members read back to the message's own values. */
  lemma IdentityMembersDecode(j: Json, m: Message)
    requires HoldsMembers(j, m)
    ensures StringField(j, KeyName(IdKey)) == Some(m.id)
    ensures StringField(j, KeyName(ObjectKey)) == Some(m.objectType)
    ensures U32Field(j, KeyName(CreatedAtKey)) == Some(m.createdAt)
    ensures StringField(j, KeyName(ThreadIdKey)) == Some(m.threadId)
  {
    assert Field(j, KeyName(IdKey)) == MemberValue(m, IdKey);
    assert Field(j, KeyName(ObjectKey)) == MemberValue(m, ObjectKey);
    assert Field(j, KeyName(CreatedAtKey)) == MemberValue(m, CreatedAtKey);
    assert Field(j, KeyName(ThreadIdKey)) == MemberValue(m, ThreadIdKey);
  }

  /** The lifecycle optionals read back to the optionals they came from. */
  lemma LifecycleMembersDecode(j: Json, m: Message)
    requires HoldsMembers(j, m)
    ensures OptionalField(j, KeyName(IncompleteDetailsKey), IncompleteDetailFromJson) == Some(m.incompleteDetails)
    ensures OptionalField(j, KeyName(CompletedAtKey), U32FromJson) == Some(m.completedAt)
    ensures OptionalField(j, KeyName(IncompleteAtKey), U32FromJson) == Some(m.incompleteAt)
  {
    assert Field(j, KeyName(IncompleteDetailsKey)) == MemberValue(m, IncompleteDetailsKey);
    assert Field(j, KeyName(CompletedAtKey)) == MemberValue(m, CompletedAtKey);
    assert Field(j, KeyName(IncompleteAtKey)) == MemberValue(m, IncompleteAtKey);
  }

  /** An attachments array reads back to the attachments it came from. */
  lemma AttachmentsRoundTrip(atts: seq<Attachment>)
    ensures AttachmentsFromJson(AttachmentsToJson(atts)) == Some(atts)
  {
    forall k | 0 <= k < |atts| ensures AttachmentFromJson(AttachmentToJson(atts[k])) == Some(atts[k]) {
      AttachmentRoundTrip(atts[k]);
    }
    DecodeAllElements(atts, AttachmentToJson, AttachmentFromJson);
  }

  /** The `attachments` member reads back to the optional it came from. */
  lemma AttachmentsMemberDecodes(j: Json, m: Message)
    requires HoldsMembers(j, m)
    ensures OptionalField(j, KeyName(AttachmentsKey), AttachmentsFromJson) == Some(m.attachments)
  {
    assert Field(j, KeyName(AttachmentsKey)) == MemberValue(m, AttachmentsKey);
    if m.attachments.Some? {
      AttachmentsRoundTrip(m.attachments.value);
    }
  }

  /** The optionals naming the message's origin read back to the optionals
      they came from. */
  lemma OriginMembersDecode(j: Json, m: Message)
    requires HoldsMembers(j, m)
    ensures OptionalField(j, KeyName(AssistantIdKey), StringFromJson) == Some(m.assistantId)
    ensures OptionalField(j, KeyName(RunIdKey), StringFromJson) == Some(m.runId)
    ensures OptionalField(j, KeyName(AttachmentsKey), AttachmentsFromJson) == Some(m.attachments)
  {
    assert Field(j, KeyName(AssistantIdKey)) == MemberValue(m, AssistantIdKey);
    assert Field(j, KeyName(RunIdKey)) == MemberValue(m, RunIdKey);
    AttachmentsMemberDecodes(j, m);
  }

  /** The status and role members read back to the message's own status
      and role. */
  lemma StatusAndRoleDecode(j: Json, m: Message)
    requires HoldsMembers(j, m)
    ensures StringField(j, KeyName(StatusKey)) == Some(StatusToString(m.status))
    ensures StringField(j, KeyName(RoleKey)) == Some(RoleToString(m.role))
  {
    assert Field(j, KeyName(StatusKey)) == MemberValue(m, StatusKey);
    assert Field(j, KeyName(RoleKey)) == MemberValue(m, RoleKey);
  }

  /** The content and metadata members read back to the message's own
      parts and metadata. */
  lemma ContentAndMetadataDecode(j: Json, m: Message)
    requires HoldsMembers(j, m)
    ensures Field(j, KeyName(ContentKey)).Some?
    ensures ContentsFromJson(Field(j, KeyName(ContentKey)).value) == Some(m.content)
    ensures Field(j, KeyName(MetadataKey)).Some?
    ensures MetadataFromJson(Field(j, KeyName(MetadataKey)).value) == Some(m.metadata)
  {
    assert Field(j, KeyName(ContentKey)) == Some(JArray(Elements(m.content, ContentToJson))) by {
      assert Field(j, KeyName(ContentKey)) == MemberValue(m, ContentKey);
    }
    assert Field(j, KeyName(MetadataKey)) == Some(MetadataToJson(m.metadata)) by {
      assert Field(j, KeyName(MetadataKey)) == MemberValue(m, MetadataKey);
    }
    forall k | 0 <= k < |m.content| ensures ContentFromJson(ContentToJson(m.content[k])) == Some(m.content[k]) {
    }
    DecodeAllElements(m.content, ContentToJson, ContentFromJson);
    MetadataRoundTrip(m.metadata);
  }

  /** Any object holding the members of `m` as written decodes to `m`;
      the decoder reads only the fourteen names, so nothing else matters. */
  lemma DecodeSerialised(j: Json, m: Message)
    requires HoldsMembers(j, m)
    ensures MessageFromJson(j) == Some(m)
  {
    IdentityMembersDecode(j, m);
    StatusAndRoleDecode(j, m);
    ContentAndMetadataDecode(j, m);
    LifecycleMembersDecode(j, m);
    OriginMembersDecode(j, m);
  }

  /** Serialising a message loses nothing: the decoder recovers it. */
  lemma MessageRoundTrip(m: Message)
    ensures MessageFromJson(MessageToJson(m)) == Some(m)
  {
    MessageToJsonSerialises(m);
    DecodeSerialised(MessageToJson(m), m);
  }
}
