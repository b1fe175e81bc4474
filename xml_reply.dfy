/**
  `ReactAgent._parse_response` of src/agent.py: the reply is wrapped in a
  synthetic `<root>` element and tokenised by ElementTree; the thought, the
  tool name and the parameters are then read off the element tree. The
  tokeniser is not modelled: its outcome, a tree or a parse error, is the
  input here.
*/
module XmlReply {
  import opened Wrappers
  import opened Text

  /** An ElementTree element: its tag, its leading text (`elem.text`, None
      when absent) and its child elements in document order. */
  datatype Element = Element(tag: string, text: Option<string>, children: seq<Element>)

  /** What `ET.fromstring("<root>" + reply + "</root>")` gives: a tree, or
      the `ET.ParseError` it raises on malformed input. */
  datatype XmlDoc = Malformed | Parsed(root: Element)

  /** `{"thought": ..., "tool_name": ..., "parameters": ...}`. */
  datatype ParsedAction = ParsedAction(thought: string, toolName: string, parameters: map<string, string>)

  /** Position of the first child with the given tag. */
  function FirstIndex(children: seq<Element>, tag: string): (r: Option<nat>)
    ensures r.None? <==> forall i | 0 <= i < |children| :: children[i].tag != tag
    ensures r.Some? ==> r.value < |children| && children[r.value].tag == tag
    ensures r.Some? ==> forall j | 0 <= j < r.value :: children[j].tag != tag
  {
    if |children| == 0 then None
    else if children[0].tag == tag then Some(0)
    else match FirstIndex(children[1..], tag)
      case None => None
      case Some(k) => Some(k + 1)
  }

  /** `e.find(tag)`: the first direct child of `e` with that tag. */
  function Find(e: Element, tag: string): Option<Element> {
    match FirstIndex(e.children, tag)
    case None => None
    case Some(i) => Some(e.children[i])
  }

  /** `x.text.strip() if x is not None and x.text else ""`. */
  function TrimmedText(e: Option<Element>): string {
    if e.Some? && e.value.text.Some? && e.value.text.value != "" then Strip(e.value.text.value) else ""
  }

  /** The mapping the parameter loop builds: each child's tag to its trimmed
      text, a later child overwriting an earlier one with the same tag. */
  function ParamsOf(children: seq<Element>): map<string, string>
  {
    if |children| == 0 then map[]
    else
      var last := children[|children| - 1];
      ParamsOf(children[..|children| - 1])[last.tag := TrimmedText(Some(last))]
  }

  /** Position of the last child with the given tag. */
  function LastIndex(children: seq<Element>, tag: string): (r: Option<nat>)
    ensures r.None? <==> forall i | 0 <= i < |children| :: children[i].tag != tag
    ensures r.Some? ==> r.value < |children| && children[r.value].tag == tag
    ensures r.Some? ==> forall j | r.value < j < |children| :: children[j].tag != tag
  {
    if |children| == 0 then None
    else if children[|children| - 1].tag == tag then Some(|children| - 1)
    else LastIndex(children[..|children| - 1], tag)
  }

  /** The loop `for param in params_element: parameters[param.tag] = ...`. */
  method CollectParameters(params: Element) returns (parameters: map<string, string>)
    ensures parameters == ParamsOf(params.children)
  {
    parameters := map[];
    var i := 0;
    while i < |params.children|
      invariant 0 <= i <= |params.children|
      invariant parameters == ParamsOf(params.children[..i])
    {
      var param := params.children[i];
      parameters := parameters[param.tag := TrimmedText(Some(param))];
      assert params.children[..i + 1][..i] == params.children[..i];
      i := i + 1;
    }
    assert params.children[..i] == params.children;
  }

  /** A tag is a parameter name exactly when some child carries it, and its
      value is the trimmed text of the last such child. */
  lemma {:induction false} ParamsOfLastWins(children: seq<Element>, tag: string)
    ensures tag in ParamsOf(children) <==> exists i | 0 <= i < |children| :: children[i].tag == tag
    ensures tag in ParamsOf(children) ==>
      ParamsOf(children)[tag] == TrimmedText(Some(children[LastIndex(children, tag).value]))
    decreases |children|
  {
    if |children| > 0 {
      var init := children[..|children| - 1];
      ParamsOfLastWins(init, tag);
      if children[|children| - 1].tag != tag {
        if exists i | 0 <= i < |children| :: children[i].tag == tag {
          var i :| 0 <= i < |children| && children[i].tag == tag;
          assert init[i].tag == tag;
        }
        if exists i | 0 <= i < |init| :: init[i].tag == tag {
          var i :| 0 <= i < |init| && init[i].tag == tag;
          assert children[i].tag == tag;
        }
      }
    }
  }

  /** `_parse_response`, `None` standing for each of its failure returns. */
  function ParseResponse(doc: XmlDoc): Option<ParsedAction>
  {
    match doc
    case Malformed => None
    case Parsed(root) =>
      var action := Find(root, "ACTION");
      if action.None? then None
      else
        var toolName := TrimmedText(Find(action.value, "tool_name"));
        if toolName == "" then None
        else
          var params := Find(action.value, "parameters");
          var parameters := if params.Some? then ParamsOf(params.value.children) else map[];
          Some(ParsedAction(TrimmedText(Find(root, "THOUGHT")), toolName, parameters))
  }

  /** The reply is rejected exactly on a parse error, a missing ACTION child,
      or a tool name that is missing or blank; an accepted reply has a
      non-empty, already trimmed tool name. */
  lemma ParseResponseAccepts(doc: XmlDoc)
    ensures ParseResponse(doc).None? <==>
      || doc.Malformed?
      || Find(doc.root, "ACTION").None?
      || TrimmedText(Find(Find(doc.root, "ACTION").value, "tool_name")) == ""
    ensures ParseResponse(doc).Some? ==>
      var a := ParseResponse(doc).value;
      a.toolName != "" && Strip(a.toolName) == a.toolName
  {
    if ParseResponse(doc).Some? {
      var action := Find(doc.root, "ACTION").value;
      var tn := Find(action, "tool_name").value.text.value;
      StripIdempotent(tn);
    }
  }

  /** The thought is the trimmed text of the first THOUGHT child, "" when
      there is none or it has no text; the parameters map each child tag of
      the first `parameters` element to the trimmed text of its last
      occurrence, and are empty when there is no such element. */
  lemma ParsedFields(doc: XmlDoc, tag: string)
    requires ParseResponse(doc).Some?
    ensures var a := ParseResponse(doc).value;
      var action := Find(doc.root, "ACTION").value;
      var params := Find(action, "parameters");
      && (Find(doc.root, "THOUGHT").None? ==> a.thought == "")
      && (params.None? ==> a.parameters == map[])
      && (params.Some? ==>
            (tag in a.parameters <==> exists i | 0 <= i < |params.value.children| :: params.value.children[i].tag == tag))
      && (params.Some? && tag in a.parameters ==>
            a.parameters[tag] == TrimmedText(Some(params.value.children[LastIndex(params.value.children, tag).value])))
  {
    var params := Find(Find(doc.root, "ACTION").value, "parameters");
    if params.Some? {
      ParamsOfLastWins(params.value.children, tag);
    }
  }

  /** Absent or empty text trims to "", like any blank text. */
  lemma TrimmedTextIsStrip(e: Element)
    ensures TrimmedText(Some(e)) == Strip(e.text.GetOr(""))
  {
    assert Strip("") == "";
  }

  /** Whitespace around the tool name's text does not change what is parsed. */
  lemma ToolNameIgnoresPadding(pre: string, name: string, post: string)
    requires AllSpace(pre) && AllSpace(post)
    ensures TrimmedText(Some(Element("tool_name", Some(pre + name + post), []))) ==
            TrimmedText(Some(Element("tool_name", Some(name), [])))
  {
    TrimmedTextIsStrip(Element("tool_name", Some(pre + name + post), []));
    TrimmedTextIsStrip(Element("tool_name", Some(name), []));
    StripPadded(pre, name, post);
  }

  /** The completion reply
      `<ACTION><tool_name>task_complete</tool_name><parameters><summary>done</summary></parameters></ACTION>`
      parses to the terminal tool with summary "done" and an empty thought. */
  lemma CompletionReplyParses()
    ensures var summary := Element("summary", Some("done"), []);
      var action := Element("ACTION", None, [
        Element("tool_name", Some("task_complete"), []),
        Element("parameters", None, [summary])]);
      ParseResponse(Parsed(Element("root", None, [action])))
        == Some(ParsedAction("", "task_complete", map["summary" := "done"]))
  {
    var summary := Element("summary", Some("done"), []);
    var tn := Element("tool_name", Some("task_complete"), []);
    var params := Element("parameters", None, [summary]);
    var action := Element("ACTION", None, [tn, params]);
    var root := Element("root", None, [action]);
    assert FirstIndex(root.children, "ACTION") == Some(0);
    assert FirstIndex(action.children, "tool_name") == Some(0);
    assert FirstIndex(action.children[1..], "parameters") == Some(0);
    assert FirstIndex(action.children, "parameters") == Some(1);
    StripTrimmed("task_complete");
    StripTrimmed("done");
    assert [summary][..0] == [];
    assert ParamsOf([summary]) == map["summary" := "done"];
  }

  /** Tags are matched case-sensitively: a reply whose action element is a
      direct child of the root, with a tool name, is accepted when spelled
      `<ACTION>` and rejected when spelled `<action>`. */
  lemma ActionTagCaseSensitive(thought: Element, toolName: Element)
    requires thought.tag == "THOUGHT"
    requires toolName.tag == "tool_name" && TrimmedText(Some(toolName)) != ""
    ensures ParseResponse(Parsed(Element("root", None, [thought, Element("ACTION", None, [toolName])]))).Some?
    ensures ParseResponse(Parsed(Element("root", None, [thought, Element("action", None, [toolName])]))).None?
  {
    var upper := Element("ACTION", None, [toolName]);
    var lower := Element("action", None, [toolName]);
    assert "THOUGHT" != "ACTION" && "action" != "ACTION";
    assert FirstIndex([thought, upper], "ACTION") == Some(1);
    assert FirstIndex([toolName], "tool_name") == Some(0);
  }

  /** Only the root's own children are searched: a reply wrapped in a
      `<response>` element is rejected, whatever it holds. */
  lemma WrappedReplyRejected(inner: seq<Element>)
    ensures ParseResponse(Parsed(Element("root", None, [Element("response", None, inner)]))) == None
  {
    assert "response" != "ACTION";
  }
}
