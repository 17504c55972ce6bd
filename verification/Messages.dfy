/** Harness conversation to gateway context: tool results find their calls, blocks keep their order.

JSON parsing of call arguments and the bytes of images are inputs; only the presence of resolved
bytes matters here. */
module Messages {
  import opened Common

  datatype Block =
    | Text(text: string)
    | Reasoning(text: string)
    | ToolCall(id: string, name: string, arguments: string)
    | Image(attachment: Option<string>)
    | ToolResult(callId: string, content: seq<Block>, isError: bool)

  datatype Role = System | User | Assistant

  datatype Message = Message(role: Role, content: seq<Block>)

  datatype Part = TextPart(text: string) | ImagePart(bytes: string)

  /** A user message is a plain string unless it carries a resolved image. */
  datatype UserContent = Flat(text: string) | Parts(parts: seq<Part>)

  datatype AssistantBlock = Said(text: string) | Thought(text: string) | Called(id: string, name: string, arguments: string)

  datatype PiMessage =
    | UserMessage(content: UserContent)
    | AssistantMessage(blocks: seq<AssistantBlock>, toolUse: bool)
    | ResultMessage(callId: string, toolName: string, text: string, isError: bool)

  /** Assistant images cannot be replayed; the whole conversion fails on one. */
  datatype Context = Context(messages: seq<PiMessage>) | Unreplayable

  type Images = map<string, string>

  // ---- Pieces ------------------------------------------------------------------------------

  function ResultText(blocks: seq<Block>): string {
    if blocks == [] then ""
    else BlockText(blocks[0]) + ResultText(blocks[1..])
  }

  function BlockText(b: Block): string {
    match b
    case Text(text) => text
    case ToolResult(_, content, _) => ResultText(content)
    case _ => ""
  }

  /** The text blocks of a block tree, depth first. */
  function Leaves(blocks: seq<Block>): seq<string> {
    if blocks == [] then []
    else (match blocks[0]
          case Text(text) => [text]
          case ToolResult(_, content, _) => Leaves(content)
          case _ => [])
         + Leaves(blocks[1..])
  }

  /** A tool result's text is its tree's text leaves in order, however deep they sit. */
  lemma {:induction false} ResultTextIsLeaves(blocks: seq<Block>)
    ensures ResultText(blocks) == Concat(Leaves(blocks))
    decreases blocks
  {
    if blocks != [] {
      var b := blocks[0];
      var first := match b
                   case Text(text) => [text]
                   case ToolResult(_, content, _) => Leaves(content)
                   case _ => [];
      ResultTextIsLeaves(blocks[1..]);
      if b.ToolResult? {
        ResultTextIsLeaves(b.content);
      }
      ConcatAppend(first, Leaves(blocks[1..]));
    }
  }

  function ShownText(blocks: seq<Block>): string {
    var text := ResultText(blocks);
    if text == "" then "(no output)" else text
  }

  function Calls(blocks: seq<Block>): seq<Block> {
    if blocks == [] then []
    else Calls(blocks[..|blocks| - 1]) + (if blocks[|blocks| - 1].ToolCall? then [blocks[|blocks| - 1]] else [])
  }

  function Results(blocks: seq<Block>): seq<Block> {
    if blocks == [] then []
    else Results(blocks[..|blocks| - 1]) + (if blocks[|blocks| - 1].ToolResult? then [blocks[|blocks| - 1]] else [])
  }

  function UserPart(b: Block, images: Images): seq<Part> {
    match b
    case Text(text) => if text != "" then [TextPart(text)] else []
    case Image(Some(id)) => if id in images then [ImagePart(images[id])] else []
    case _ => []
  }

  function UserParts(blocks: seq<Block>, images: Images): seq<Part> {
    if blocks == [] then []
    else UserParts(blocks[..|blocks| - 1], images) + UserPart(blocks[|blocks| - 1], images)
  }

  predicate HasImage(parts: seq<Part>) {
    exists i | 0 <= i < |parts| :: parts[i].ImagePart?
  }

  function FlatText(parts: seq<Part>): string {
    if parts == [] then ""
    else FlatText(parts[..|parts| - 1]) + (if parts[|parts| - 1].TextPart? then parts[|parts| - 1].text else "")
  }

  function UserBlocks(blocks: seq<Block>, images: Images): UserContent {
    var parts := UserParts(blocks, images);
    if HasImage(parts) then Parts(parts) else Flat(FlatText(parts))
  }

  function Length(c: UserContent): nat {
    match c
    case Flat(text) => |text|
    case Parts(parts) => |parts|
  }

  function SystemText(blocks: seq<Block>): string {
    if blocks == [] then ""
    else SystemText(blocks[..|blocks| - 1]) + (if blocks[|blocks| - 1].Text? then blocks[|blocks| - 1].text else "")
  }

  function Spoken(blocks: seq<Block>, parse: string -> string): seq<AssistantBlock> {
    if blocks == [] then []
    else
      Spoken(blocks[..|blocks| - 1], parse)
      + (match blocks[|blocks| - 1]
         case Text(text) => [Said(text)]
         case Reasoning(text) => [Thought(text)]
         case ToolCall(id, name, arguments) => [Called(id, name, parse(arguments))]
         case _ => [])
  }

  predicate HasAttachedImage(blocks: seq<Block>) {
    exists i | 0 <= i < |blocks| :: blocks[i].Image?
  }

  // ---- The conversion ----------------------------------------------------------------------

  /** Name of the latest call with this id among earlier messages; this is what a result must
  carry. It looks backwards through the conversation, the code fills a map forwards. */
  function LatestName(calls: seq<Block>, id: string): string {
    if calls == [] then "unknown"
    else
      var last := calls[|calls| - 1];
      if last.ToolCall? && last.id == id then last.name else LatestName(calls[..|calls| - 1], id)
  }

  predicate CallsAs(b: Block, id: string) {
    b.ToolCall? && b.id == id
  }

  /** It is the name of the last call with the id, wherever that stands, or "unknown" if there
  is none. */
  lemma {:induction false} LatestNameIs(calls: seq<Block>, id: string)
    ensures if forall i | 0 <= i < |calls| :: !CallsAs(calls[i], id) then LatestName(calls, id) == "unknown"
            else exists i | 0 <= i < |calls| ::
                   && CallsAs(calls[i], id) && LatestName(calls, id) == calls[i].name
                   && forall j | i < j < |calls| :: !CallsAs(calls[j], id)
  {
    if calls != [] {
      var front, last := calls[..|calls| - 1], calls[|calls| - 1];
      LatestNameIs(front, id);
      assert calls == front + [last];
      if !CallsAs(last, id) {
        assert forall i | 0 <= i < |front| :: calls[i] == front[i];
      }
    }
  }

  /** Every call the assistant has made in these messages, in order. */
  function AllCalls(messages: seq<Message>): seq<Block> {
    if messages == [] then []
    else
      var last := messages[|messages| - 1];
      AllCalls(messages[..|messages| - 1]) + (if last.role.Assistant? then Calls(last.content) else [])
  }

  function Answer(calls: seq<Block>, r: Block): PiMessage
    requires r.ToolResult?
  {
    ResultMessage(r.callId, LatestName(calls, r.callId), ShownText(r.content), r.isError)
  }

  function Answers(calls: seq<Block>, results: seq<Block>): seq<PiMessage> {
    if results == [] then []
    else
      var last := results[|results| - 1];
      Answers(calls, results[..|results| - 1]) + (if last.ToolResult? then [Answer(calls, last)] else [])
  }

  function Converted(m: Message, calls: seq<Block>, images: Images, parse: string -> string): seq<PiMessage> {
    match m.role
    case System => if SystemText(m.content) != "" then [UserMessage(Flat(SystemText(m.content)))] else []
    case Assistant => [AssistantMessage(Spoken(m.content, parse), Calls(m.content) != [])]
    case User =>
      var content, results := UserBlocks(m.content, images), Results(m.content);
      (if Length(content) > 0 || results == [] then [UserMessage(content)] else [])
      + Answers(calls, results)
  }

  /** The whole conversion, message by message, each result named by looking back. */
  function ToPiContext(messages: seq<Message>, images: Images, parse: string -> string): Context {
    if messages == [] then Context([])
    else
      var front, last := messages[..|messages| - 1], messages[|messages| - 1];
      match ToPiContext(front, images, parse)
      case Unreplayable => Unreplayable
      case Context(done) =>
        if last.role.Assistant? && HasAttachedImage(last.content) then Unreplayable
        else Context(done + Converted(last, AllCalls(front), images, parse))
  }

  // ---- The code ----------------------------------------------------------------------------

  /** The map of the code holds, for every id, the latest name seen. */
  ghost predicate Holds(names: map<string, string>, calls: seq<Block>) {
    forall id :: (if id in names then names[id] else "unknown") == LatestName(calls, id)
  }

  method CollectParts(content: seq<Block>, images: Images) returns (c: UserContent)
    ensures c == UserBlocks(content, images)
  {
    var parts: seq<Part>, hasImage := [], false;
    for i := 0 to |content|
      invariant parts == UserParts(content[..i], images) && hasImage == HasImage(parts)
    {
      assert content[..i + 1][..i] == content[..i];
      var more := UserPart(content[i], images);
      if more != [] {
        assert more == [more[0]];
        assert HasImage(parts + more) <==> HasImage(parts) || more[0].ImagePart? by {
          if HasImage(parts) {
            var k :| 0 <= k < |parts| && parts[k].ImagePart?;
            assert (parts + more)[k].ImagePart?;
          }
          assert (parts + more)[|parts|] == more[0];
        }
        hasImage := hasImage || more[0].ImagePart?;
      } else {
        assert parts + more == parts;
      }
      parts := parts + more;
    }
    assert content[..|content|] == content;
    c := if hasImage then Parts(parts) else Flat(FlatText(parts));
  }

  method RecordCalls(names: map<string, string>, ghost calls: seq<Block>, content: seq<Block>) returns (next: map<string, string>)
    requires Holds(names, calls)
    ensures Holds(next, calls + Calls(content))
  {
    hide Holds, LatestName;
    next := names;
    assert calls + [] == calls;
    for i := 0 to |content|
      invariant Holds(next, calls + Calls(content[..i]))
    {
      assert content[..i + 1][..i] == content[..i];
      if content[i].ToolCall? {
        ghost var before := calls + Calls(content[..i]);
        assert calls + Calls(content[..i + 1]) == before + [content[i]];
        HoldsNext(next, before, content[i]);
        next := next[content[i].id := content[i].name];
      } else {
        assert Calls(content[..i]) + [] == Calls(content[..i]);
      }
    }
    assert content[..|content|] == content;
  }

  lemma HoldsNext(names: map<string, string>, calls: seq<Block>, call: Block)
    requires Holds(names, calls) && call.ToolCall?
    ensures Holds(names[call.id := call.name], calls + [call])
  {
    assert (calls + [call])[..|calls|] == calls;
  }

  method AnswerResults(names: map<string, string>, ghost calls: seq<Block>, results: seq<Block>) returns (out: seq<PiMessage>)
    requires Holds(names, calls) && forall r | r in results :: r.ToolResult?
    ensures out == Answers(calls, results)
  {
    out := [];
    for i := 0 to |results|
      invariant out == Answers(calls, results[..i])
    {
      var r := results[i];
      assert results[..i + 1][..i] == results[..i];
      out := out + [ResultMessage(r.callId, if r.callId in names then names[r.callId] else "unknown",
                                  ShownText(r.content), r.isError)];
    }
    assert results[..|results|] == results;
  }

  method Convert(messages: seq<Message>, images: Images, parse: string -> string) returns (context: Context)
    ensures context == ToPiContext(messages, images, parse)
  {
    hide UserBlocks, Answers, Spoken, SystemText, Length, HasAttachedImage, Holds;
    var toolNames: map<string, string> := map[];
    var out: seq<PiMessage> := [];
    NothingHeld();
    for i := 0 to |messages|
      invariant ToPiContext(messages[..i], images, parse) == Context(out)
      invariant Holds(toolNames, AllCalls(messages[..i]))
    {
      var message := messages[i];
      assert messages[..i + 1][..i] == messages[..i];
      match message.role {
        case System =>
          var text := SystemText(message.content);
          if |text| > 0 {
            out := out + [UserMessage(Flat(text))];
          } else {
            assert out + [] == out;
          }
          assert AllCalls(messages[..i]) + [] == AllCalls(messages[..i]);
        case Assistant =>
          if HasAttachedImage(message.content) {
            StaysUnreplayable(messages, i + 1, images, parse);
            return Unreplayable;
          }
          toolNames := RecordCalls(toolNames, AllCalls(messages[..i]), message.content);
          out := out + [AssistantMessage(Spoken(message.content, parse), Calls(message.content) != [])];
        case User =>
          var content := CollectParts(message.content, images);
          var results := Results(message.content);
          ResultsAreResults(message.content);
          var answers := AnswerResults(toolNames, AllCalls(messages[..i]), results);
          if Length(content) > 0 || |results| == 0 {
            out := out + ([UserMessage(content)] + answers);
          } else {
            assert [] + answers == answers;
            out := out + answers;
          }
          assert AllCalls(messages[..i]) + [] == AllCalls(messages[..i]);
      }
    }
    assert messages[..|messages|] == messages;
    context := Context(out);
  }

  lemma NothingHeld()
    ensures Holds(map[], AllCalls([]))
  {
  }

  lemma {:induction false} ResultsAreResults(blocks: seq<Block>)
    ensures forall r | r in Results(blocks) :: r.ToolResult?
  {
    if blocks != [] {
      ResultsAreResults(blocks[..|blocks| - 1]);
    }
  }

  lemma {:induction false} StaysUnreplayable(messages: seq<Message>, n: nat, images: Images, parse: string -> string)
    requires n <= |messages| && ToPiContext(messages[..n], images, parse).Unreplayable?
    ensures ToPiContext(messages, images, parse).Unreplayable?
    decreases |messages| - n
  {
    if n < |messages| {
      assert messages[..n + 1][..n] == messages[..n];
      StaysUnreplayable(messages, n + 1, images, parse);
    } else {
      assert messages[..n] == messages;
    }
  }

  // ---- What the pieces are -----------------------------------------------------------------

  /** Reading a message block by block: what a list of blocks gives is what its parts give, one
  after the other. */
  lemma PiecesAppend(a: seq<Block>, b: seq<Block>, images: Images, parse: string -> string)
    ensures Spoken(a + b, parse) == Spoken(a, parse) + Spoken(b, parse)
    ensures SystemText(a + b) == SystemText(a) + SystemText(b)
    ensures UserParts(a + b, images) == UserParts(a, images) + UserParts(b, images)
    ensures Results(a + b) == Results(a) + Results(b)
    ensures Calls(a + b) == Calls(a) + Calls(b)
  {
    hide Spoken, SystemText, UserParts, Results, Calls;
    SpokenAppend(a, b, parse);
    SystemTextAppend(a, b);
    UserPartsAppend(a, b, images);
    ResultsAppend(a, b);
    CallsAppend(a, b);
  }

  lemma {:induction false} SpokenAppend(a: seq<Block>, b: seq<Block>, parse: string -> string)
    ensures Spoken(a + b, parse) == Spoken(a, parse) + Spoken(b, parse)
  {
    hide Spoken;
    SpokenParts(a, Image(None), parse);
    if b == [] {
      assert a + b == a;
    } else {
      var front, last := b[..|b| - 1], b[|b| - 1];
      SpokenAppend(a, front, parse);
      SpokenParts(a + front, last, parse);
      SpokenParts(front, last, parse);
      assert a + b == (a + front) + [last] && b == front + [last];
    }
  }

  lemma SpokenParts(blocks: seq<Block>, last: Block, parse: string -> string)
    ensures Spoken(blocks + [last], parse) == Spoken(blocks, parse) + Spoken([last], parse)
    ensures Spoken([], parse) == []
  {
    assert (blocks + [last])[..|blocks|] == blocks && [last][..0] == [];
  }

  lemma {:induction false} SystemTextAppend(a: seq<Block>, b: seq<Block>)
    ensures SystemText(a + b) == SystemText(a) + SystemText(b)
  {
    hide SystemText;
    SystemTextParts(a, Image(None));
    if b == [] {
      assert a + b == a;
    } else {
      var front, last := b[..|b| - 1], b[|b| - 1];
      SystemTextAppend(a, front);
      SystemTextParts(a + front, last);
      SystemTextParts(front, last);
      assert a + b == (a + front) + [last] && b == front + [last];
    }
  }

  lemma SystemTextParts(blocks: seq<Block>, last: Block)
    ensures SystemText(blocks + [last]) == SystemText(blocks) + SystemText([last])
    ensures SystemText([]) == ""
  {
    assert (blocks + [last])[..|blocks|] == blocks && [last][..0] == [];
  }

  lemma {:induction false} UserPartsAppend(a: seq<Block>, b: seq<Block>, images: Images)
    ensures UserParts(a + b, images) == UserParts(a, images) + UserParts(b, images)
  {
    hide UserParts;
    UserPartsParts(a, Image(None), images);
    if b == [] {
      assert a + b == a;
    } else {
      var front, last := b[..|b| - 1], b[|b| - 1];
      UserPartsAppend(a, front, images);
      UserPartsParts(a + front, last, images);
      UserPartsParts(front, last, images);
      assert a + b == (a + front) + [last] && b == front + [last];
    }
  }

  lemma UserPartsParts(blocks: seq<Block>, last: Block, images: Images)
    ensures UserParts(blocks + [last], images) == UserParts(blocks, images) + UserParts([last], images)
    ensures UserParts([], images) == []
  {
    hide UserPart;
    assert (blocks + [last])[..|blocks|] == blocks && [last][..0] == [];
  }

  lemma {:induction false} ResultsAppend(a: seq<Block>, b: seq<Block>)
    ensures Results(a + b) == Results(a) + Results(b)
  {
    hide Results;
    ResultsParts(a, Image(None));
    if b == [] {
      assert a + b == a;
    } else {
      var front, last := b[..|b| - 1], b[|b| - 1];
      ResultsAppend(a, front);
      ResultsParts(a + front, last);
      ResultsParts(front, last);
      assert a + b == (a + front) + [last] && b == front + [last];
    }
  }

  lemma ResultsParts(blocks: seq<Block>, last: Block)
    ensures Results(blocks + [last]) == Results(blocks) + Results([last])
    ensures Results([]) == []
  {
    assert (blocks + [last])[..|blocks|] == blocks && [last][..0] == [];
  }

  lemma {:induction false} CallsAppend(a: seq<Block>, b: seq<Block>)
    ensures Calls(a + b) == Calls(a) + Calls(b)
  {
    hide Calls;
    CallsParts(a, Image(None));
    if b == [] {
      assert a + b == a;
    } else {
      var front, last := b[..|b| - 1], b[|b| - 1];
      CallsAppend(a, front);
      CallsParts(a + front, last);
      CallsParts(front, last);
      assert a + b == (a + front) + [last] && b == front + [last];
    }
  }

  lemma CallsParts(blocks: seq<Block>, last: Block)
    ensures Calls(blocks + [last]) == Calls(blocks) + Calls([last])
    ensures Calls([]) == []
  {
    assert (blocks + [last])[..|blocks|] == blocks && [last][..0] == [];
  }

  /** What each kind of block gives: text and thoughts are said, calls carry parsed arguments, and
  nothing else is replayed; system messages keep text only; users show non-empty text and the bytes
  of attached images that were resolved. */
  lemma SingleBlocks(b: Block, images: Images, parse: string -> string)
    ensures Spoken([b], parse) == match b
                                  case Text(text) => [Said(text)]
                                  case Reasoning(text) => [Thought(text)]
                                  case ToolCall(id, name, arguments) => [Called(id, name, parse(arguments))]
                                  case Image(_) => []
                                  case ToolResult(_, _, _) => []
    ensures SystemText([b]) == if b.Text? then b.text else ""
    ensures UserParts([b], images) == if b.Text? && b.text != "" then [TextPart(b.text)]
                                      else if b.Image? && b.attachment.Some? && b.attachment.value in images
                                      then [ImagePart(images[b.attachment.value])] else []
    ensures Results([b]) == if b.ToolResult? then [b] else []
    ensures Calls([b]) == if b.ToolCall? then [b] else []
  {
    assert [b][..0] == [];
  }

  /** Any block of any message: what stands before it, then what it gives by itself, then what
  stands after it. */
  lemma BlockInPlace(a: seq<Block>, b: Block, c: seq<Block>, images: Images, parse: string -> string)
    ensures Spoken(a + [b] + c, parse)
         == Spoken(a, parse)
            + (match b
               case Text(text) => [Said(text)]
               case Reasoning(text) => [Thought(text)]
               case ToolCall(id, name, arguments) => [Called(id, name, parse(arguments))]
               case _ => [])
            + Spoken(c, parse)
    ensures SystemText(a + [b] + c) == SystemText(a) + (if b.Text? then b.text else "") + SystemText(c)
    ensures UserParts(a + [b] + c, images)
         == UserParts(a, images)
            + (if b.Text? && b.text != "" then [TextPart(b.text)]
               else if b.Image? && b.attachment.Some? && b.attachment.value in images
               then [ImagePart(images[b.attachment.value])] else [])
            + UserParts(c, images)
    ensures Results(a + [b] + c) == Results(a) + (if b.ToolResult? then [b] else []) + Results(c)
    ensures Calls(a + [b] + c) == Calls(a) + (if b.ToolCall? then [b] else []) + Calls(c)
  {
    hide Spoken, SystemText, UserParts, Results, Calls;
    PiecesAppend(a + [b], c, images, parse);
    PiecesAppend(a, [b], images, parse);
    SingleBlocks(b, images, parse);
  }

  /** A block a user message shows something of. */
  predicate Shows(b: Block, images: Images) {
    (b.Text? && b.text != "") || ShowsImage(b, images)
  }

  predicate ShowsImage(b: Block, images: Images) {
    b.Image? && b.attachment.Some? && b.attachment.value in images
  }

  lemma {:induction false} PartsShown(blocks: seq<Block>, images: Images)
    ensures var parts := UserParts(blocks, images);
            && (parts == [] <==> forall i | 0 <= i < |blocks| :: !Shows(blocks[i], images))
            && (HasImage(parts) <==> exists i | 0 <= i < |blocks| :: ShowsImage(blocks[i], images))
            && forall p | p in parts && p.TextPart? :: p.text != ""
  {
    hide Shows, ShowsImage, UserPart, HasImage;
    if blocks == [] {
      NoImage();
    } else {
      var front, last := blocks[..|blocks| - 1], blocks[|blocks| - 1];
      PartsShown(front, images);
      assert blocks == front + [last];
      assert forall i | 0 <= i < |front| :: blocks[i] == front[i];
      PartShown(UserParts(front, images), last, images);
    }
  }

  lemma NoImage()
    ensures !HasImage([])
  {
  }

  lemma PartShown(before: seq<Part>, last: Block, images: Images)
    ensures var more := UserPart(last, images);
            && (more != [] <==> Shows(last, images))
            && (HasImage(before + more) <==> HasImage(before) || ShowsImage(last, images))
            && forall p | p in more && p.TextPart? :: p.text != ""
  {
    var more := UserPart(last, images);
    assert forall i | 0 <= i < |before| :: (before + more)[i] == before[i];
    assert more != [] ==> (before + more)[|before|] == more[0];
  }

  /** The texts of the parts, in order. */
  function Texts(parts: seq<Part>): seq<string> {
    if parts == [] then []
    else (if parts[0].TextPart? then [parts[0].text] else []) + Texts(parts[1..])
  }

  lemma {:induction false} TextsAppend(a: seq<Part>, b: seq<Part>)
    ensures Texts(a + b) == Texts(a) + Texts(b)
  {
    if a == [] {
      assert a + b == b;
    } else {
      assert (a + b)[1..] == a[1..] + b;
      TextsAppend(a[1..], b);
    }
  }

  lemma {:induction false} FlatIsTexts(parts: seq<Part>)
    ensures FlatText(parts) == Concat(Texts(parts))
  {
    if parts != [] {
      var front, last := parts[..|parts| - 1], parts[|parts| - 1];
      FlatIsTexts(front);
      TextsAppend(front, [last]);
      assert parts == front + [last] && [last][1..] == [];
      if last.TextPart? {
        assert Texts([last]) == [last.text];
        ConcatSnoc(Texts(front), last.text);
      } else {
        assert Texts([last]) == [];
        assert Texts(front) + [] == Texts(front);
      }
    }
  }

  lemma {:induction false} FlatIsEmpty(parts: seq<Part>)
    requires forall p | p in parts :: p.TextPart? && p.text != ""
    ensures FlatText(parts) == "" <==> parts == []
  {
  }

  /** A user message becomes one of its own unless it shows nothing and only brings tool results;
  without a resolved image it is plain text, and its results always follow it. */
  lemma UserMessageIff(m: Message, calls: seq<Block>, images: Images, parse: string -> string)
    requires m.role.User?
    ensures var out, content := Converted(m, calls, images, parse), UserBlocks(m.content, images);
            var answers := Answers(calls, Results(m.content));
            && (out == if (exists i | 0 <= i < |m.content| :: Shows(m.content[i], images)) || Results(m.content) == []
                       then [UserMessage(content)] + answers else answers)
            && (content.Parts? <==> exists i | 0 <= i < |m.content| :: ShowsImage(m.content[i], images))
            && content == if content.Parts? then Parts(UserParts(m.content, images))
                          else Flat(Concat(Texts(UserParts(m.content, images))))
  {
    hide UserParts, Answers, Results, FlatText, ShowsImage;
    var parts := UserParts(m.content, images);
    PartsShown(m.content, images);
    FlatIsTexts(parts);
    if !HasImage(parts) {
      assert forall p | p in parts :: p.TextPart?;
      FlatIsEmpty(parts);
    }
    if (exists i | 0 <= i < |m.content| :: ShowsImage(m.content[i], images)) {
      var i :| 0 <= i < |m.content| && ShowsImage(m.content[i], images);
      assert Shows(m.content[i], images);
    }
    assert [] + Answers(calls, Results(m.content)) == Answers(calls, Results(m.content));
  }

  /** One result in, one answer out: same id, the latest call's name, all its text or a note that
  there is none, and its error flag. */
  lemma AnswerIs(calls: seq<Block>, callId: string, content: seq<Block>, isError: bool)
    ensures Answers(calls, [ToolResult(callId, content, isError)])
         == [ResultMessage(callId, LatestName(calls, callId),
                           if Concat(Leaves(content)) == "" then "(no output)" else Concat(Leaves(content)), isError)]
  {
    hide LatestName;
    ResultTextIsLeaves(content);
    assert [ToolResult(callId, content, isError)][..0] == [];
  }

  // ---- What the context says ---------------------------------------------------------------

  function ResultMessages(messages: seq<PiMessage>): seq<PiMessage> {
    if messages == [] then []
    else
      var last := messages[|messages| - 1];
      ResultMessages(messages[..|messages| - 1]) + (if last.ResultMessage? then [last] else [])
  }

  /** One answer for every tool result of every user message, in order, each named after the latest
  earlier call with its id. */
  function Expected(messages: seq<Message>): seq<PiMessage> {
    if messages == [] then []
    else
      var front, last := messages[..|messages| - 1], messages[|messages| - 1];
      Expected(front) + (if last.role.User? then Answers(AllCalls(front), Results(last.content)) else [])
  }

  lemma {:induction false} ResultMessagesAppend(a: seq<PiMessage>, b: seq<PiMessage>)
    ensures ResultMessages(a + b) == ResultMessages(a) + ResultMessages(b)
  {
    if b == [] {
      assert a + b == a;
    } else {
      ResultMessagesAppend(a, b[..|b| - 1]);
      assert (a + b)[..|a + b| - 1] == a + b[..|b| - 1];
    }
  }

  lemma {:induction false} AnswersAreResults(calls: seq<Block>, results: seq<Block>)
    ensures ResultMessages(Answers(calls, results)) == Answers(calls, results)
  {
    if results != [] {
      AnswersAreResults(calls, results[..|results| - 1]);
      var last := results[|results| - 1];
      ResultMessagesAppend(Answers(calls, results[..|results| - 1]),
                           if last.ToolResult? then [Answer(calls, last)] else []);
    }
  }

  lemma ConvertedResults(m: Message, calls: seq<Block>, images: Images, parse: string -> string)
    ensures ResultMessages(Converted(m, calls, images, parse))
         == if m.role.User? then Answers(calls, Results(m.content)) else []
  {
    hide UserBlocks, Spoken, SystemText, Length, Answers, Results;
    if m.role.User? {
      var content, results := UserBlocks(m.content, images), Results(m.content);
      AnswersAreResults(calls, results);
      ResultMessagesAppend(if Length(content) > 0 || results == [] then [UserMessage(content)] else [],
                           Answers(calls, results));
    }
  }

  /** The result messages of a converted conversation are exactly the expected ones. */
  lemma {:induction false} ResultsMatchCalls(messages: seq<Message>, images: Images, parse: string -> string)
    requires ToPiContext(messages, images, parse).Context?
    ensures ResultMessages(ToPiContext(messages, images, parse).messages) == Expected(messages)
  {
    hide Converted, Answers, Results, AllCalls;
    if messages != [] {
      var front, last := messages[..|messages| - 1], messages[|messages| - 1];
      ResultsMatchCalls(front, images, parse);
      ConvertedResults(last, AllCalls(front), images, parse);
      ResultMessagesAppend(ToPiContext(front, images, parse).messages, Converted(last, AllCalls(front), images, parse));
    }
  }

  /** What one message becomes besides the answers: system text that is not empty, as the user says
  it; what a user message shows; and the assistant's blocks, marked when they call tools. */
  function ReplayedOne(m: Message, images: Images, parse: string -> string): seq<PiMessage> {
    match m.role
    case System => if SystemText(m.content) == "" then [] else [UserMessage(Flat(SystemText(m.content)))]
    case Assistant => [AssistantMessage(Spoken(m.content, parse), exists b | b in m.content :: b.ToolCall?)]
    case User =>
      if (exists i | 0 <= i < |m.content| :: Shows(m.content[i], images)) || (forall b | b in m.content :: !b.ToolResult?)
      then [UserMessage(UserBlocks(m.content, images))] else []
  }

  function Replayed(messages: seq<Message>, images: Images, parse: string -> string): seq<PiMessage> {
    if messages == [] then []
    else Replayed(messages[..|messages| - 1], images, parse) + ReplayedOne(messages[|messages| - 1], images, parse)
  }

  function WithoutAnswers(messages: seq<PiMessage>): seq<PiMessage> {
    if messages == [] then []
    else
      var last := messages[|messages| - 1];
      WithoutAnswers(messages[..|messages| - 1]) + (if last.ResultMessage? then [] else [last])
  }

  lemma {:induction false} WithoutAppend(a: seq<PiMessage>, b: seq<PiMessage>)
    ensures WithoutAnswers(a + b) == WithoutAnswers(a) + WithoutAnswers(b)
  {
    if b == [] {
      assert a + b == a;
    } else {
      WithoutAppend(a, b[..|b| - 1]);
      assert (a + b)[..|a + b| - 1] == a + b[..|b| - 1];
    }
  }

  lemma {:induction false} NoAnswersLeft(calls: seq<Block>, results: seq<Block>)
    ensures WithoutAnswers(Answers(calls, results)) == []
  {
    if results != [] {
      NoAnswersLeft(calls, results[..|results| - 1]);
      var last := results[|results| - 1];
      var more := if last.ToolResult? then [Answer(calls, last)] else [];
      WithoutAppend(Answers(calls, results[..|results| - 1]), more);
      OneLeft(more);
    }
  }

  lemma OneLeft(messages: seq<PiMessage>)
    requires |messages| <= 1
    ensures WithoutAnswers(messages) == if messages != [] && !messages[0].ResultMessage? then messages else []
  {
    assert WithoutAnswers([]) == [];
    if messages != [] {
      assert messages[..|messages| - 1] == [] && messages == [messages[0]];
    }
  }

  lemma {:induction false} KindsOfBlocks(blocks: seq<Block>)
    ensures Calls(blocks) != [] <==> exists b | b in blocks :: b.ToolCall?
    ensures Results(blocks) == [] <==> forall b | b in blocks :: !b.ToolResult?
  {
    if blocks != [] {
      var front, last := blocks[..|blocks| - 1], blocks[|blocks| - 1];
      KindsOfBlocks(front);
      assert blocks == front + [last];
    }
  }

  lemma ConvertedReplays(m: Message, calls: seq<Block>, images: Images, parse: string -> string)
    ensures WithoutAnswers(Converted(m, calls, images, parse)) == ReplayedOne(m, images, parse)
  {
    hide Spoken, SystemText, UserBlocks, Calls, Results, Answers, Length, WithoutAnswers;
    if m.role.User? {
      UserReplays(m, calls, images, parse);
    } else {
      KindsOfBlocks(m.content);
      OneLeft(Converted(m, calls, images, parse));
    }
  }

  lemma UserReplays(m: Message, calls: seq<Block>, images: Images, parse: string -> string)
    requires m.role.User?
    ensures WithoutAnswers(Converted(m, calls, images, parse)) == ReplayedOne(m, images, parse)
  {
    UserMessageIff(m, calls, images, parse);
    KindsOfBlocks(m.content);
    hide Converted, UserBlocks, Results, Answers, WithoutAnswers, Shows;
    var said := [UserMessage(UserBlocks(m.content, images))];
    NoAnswersLeft(calls, Results(m.content));
    OneLeft(said);
    WithoutAppend(said, Answers(calls, Results(m.content)));
  }

  /** Leaving out the answers to tool calls, a converted conversation is exactly its replayed
  messages, in order. */
  lemma {:induction false} ContextIsReplayed(messages: seq<Message>, images: Images, parse: string -> string)
    requires ToPiContext(messages, images, parse).Context?
    ensures WithoutAnswers(ToPiContext(messages, images, parse).messages) == Replayed(messages, images, parse)
  {
    hide Converted, ReplayedOne, AllCalls, WithoutAnswers;
    if messages == [] {
      OneLeft([]);
    } else {
      var front, last := messages[..|messages| - 1], messages[|messages| - 1];
      ContextIsReplayed(front, images, parse);
      ConvertedReplays(last, AllCalls(front), images, parse);
      WithoutAppend(ToPiContext(front, images, parse).messages, Converted(last, AllCalls(front), images, parse));
    }
  }

  /** Conversion fails exactly on an image in an assistant message. */
  lemma {:induction false} FailsIffAssistantImage(messages: seq<Message>, images: Images, parse: string -> string)
    ensures ToPiContext(messages, images, parse).Unreplayable?
       <==> exists i, b | 0 <= i < |messages| && b in messages[i].content :: messages[i].role.Assistant? && b.Image?
  {
    hide Converted;
    if messages != [] {
      var n := |messages| - 1;
      var last := messages[n];
      FailsIffAssistantImage(messages[..n], images, parse);
      assert forall i | 0 <= i < n :: messages[..n][i] == messages[i];
      assert HasAttachedImage(last.content) <==> exists b | b in last.content :: b.Image?;
    }
  }
}
