/**
  `get_available_tools()` of src/tools.py and of tools.py: the fixed list of
  tool descriptors the agent advertises to the model.
*/
module Catalog {
  import opened Wrappers
  import opened JsonModel

  /** `{"name": ..., "description": ..., "parameters": {...}}`. */
  datatype ToolDescriptor = ToolDescriptor(name: string, description: string, parameters: Json)

  /** The tools a `CodeRepositoryTools` object answers to. */
  const LocalToolNames: set<string> :=
    {"list_files", "read_file", "write_file", "search_in_files", "get_file_info"}

  const TerminalTool: string := "task_complete"

  /** How a call `tool_method(**parameters)` on the local tools ends: the
      result mapping it returned, a `TypeError` (the parameters do not fit
      the method's signature), or any other exception; messages are `str(e)`. */
  datatype LocalOutcome = Returned(result: Json) | InvalidParameters(message: string) | Failed(message: string)

  function Names(tools: seq<ToolDescriptor>): seq<string> {
    seq(|tools|, i requires 0 <= i < |tools| => tools[i].name)
  }

  predicate DistinctNames(tools: seq<ToolDescriptor>) {
    forall i, j | 0 <= i < j < |tools| :: tools[i].name != tools[j].name
  }

  function Describe(name: string, description: string, params: map<string, string>): ToolDescriptor {
    ToolDescriptor(name, description, JObject(map k | k in params :: JString(params[k])))
  }

  // The descriptions and parameter notes of src/tools.py, each held in a
  // constant of its own so that proofs about the catalog's names do not
  // have to take the long texts apart.
  const ListFilesText: string := "Recursively lists all files in a directory. Use '.' for the repository root."
  const DirectoryText: string := "string (optional, default='.') - The directory to list files from."
  const ReadFileText: string := "Reads the entire content of a specified file."
  const ReadPathText: string := "string (required) - The relative path of the file from the repository root."
  const WriteFileText: string := "Writes content to a file, creating it if it doesn't exist or overwriting it if it does."
  const WritePathText: string := "string (required) - The relative path of the file to write to."
  const ContentText: string := "string (required) - The new content for the file."
  const SearchText: string := "Searches for a pattern in files and returns the matching lines."
  const PatternText: string := "string (required) - The text pattern to search for."
  const ExtensionText: string := "string (optional) - The extension of files to search in (e.g., 'py', 'js')."
  const FileInfoText: string := "Retrieves metadata about a file, such as its size and type."
  const InfoPathText: string := "string (required) - The relative path of the file."
  const CompleteText: string := "Call this tool when the assigned task is fully completed."
  const SummaryText: string := "string (required) - A brief summary of what was accomplished."

  /** The catalog of src/tools.py. */
  function AvailableTools(): seq<ToolDescriptor> {
    [ Describe("list_files", ListFilesText, map["directory" := DirectoryText]),
      Describe("read_file", ReadFileText, map["filepath" := ReadPathText]),
      Describe("write_file", WriteFileText, map["filepath" := WritePathText, "content" := ContentText]),
      Describe("search_in_files", SearchText, map["pattern" := PatternText, "file_extension" := ExtensionText]),
      Describe("get_file_info", FileInfoText, map["filepath" := InfoPathText]),
      Describe("task_complete", CompleteText, map["summary" := SummaryText]) ]
  }

  // The descriptions and parameter notes of tools.py.
  const LegacyListFilesText: string := "List all files in a directory. Use '.' for the root of the repository."
  const LegacyDirectoryText: string := "string (optional, default='.')"
  const LegacyReadFileText: string := "Read the contents of a file. Provide the relative path from repository root."
  const LegacyWriteFileText: string := "Write content to a file. Creates the file if it doesn't exist."
  const LegacySearchText: string := "Search for a pattern in files using grep. Returns matching lines with file paths and line numbers."
  const LegacyExtensionText: string := "string (optional, e.g., 'py', 'js')"
  const LegacyFileInfoText: string := "Get information about a file (size, existence, type)."
  const LegacyCompleteText: string := "Call this when the task is complete. Provide a summary of what was accomplished."
  const RequiredText: string := "string (required)"

  /** The catalog of tools.py. */
  function LegacyAvailableTools(): seq<ToolDescriptor> {
    [ Describe("list_files", LegacyListFilesText, map["directory" := LegacyDirectoryText]),
      Describe("read_file", LegacyReadFileText, map["filepath" := RequiredText]),
      Describe("write_file", LegacyWriteFileText, map["filepath" := RequiredText, "content" := RequiredText]),
      Describe("search_in_files", LegacySearchText, map["pattern" := RequiredText, "file_extension" := LegacyExtensionText]),
      Describe("get_file_info", LegacyFileInfoText, map["filepath" := RequiredText]),
      Describe("task_complete", LegacyCompleteText, map["summary" := RequiredText]) ]
  }

  /** Six descriptors with pairwise distinct names: the five local tools
      and the terminal tool. */
  predicate WellFormedCatalog(tools: seq<ToolDescriptor>) {
    && |tools| == 6
    && DistinctNames(tools)
    && (forall i | 0 <= i < |tools| :: tools[i].name in LocalToolNames + {TerminalTool})
    && (forall n | n in LocalToolNames + {TerminalTool} :: n in Names(tools))
  }

  /** The tool names of both catalogs, in order. */
  const CatalogNames: seq<string> :=
    ["list_files", "read_file", "write_file", "search_in_files", "get_file_info", "task_complete"]

  lemma {:induction false} NamedLikeCatalog(tools: seq<ToolDescriptor>)
    requires Names(tools) == CatalogNames
    ensures WellFormedCatalog(tools)
  {
    assert forall i | 0 <= i < |tools| :: tools[i].name == CatalogNames[i];
  }

  lemma AvailableToolsShape()
    ensures WellFormedCatalog(AvailableTools())
    ensures TerminalTool in Names(AvailableTools())
  {
    assert Names(AvailableTools()) == CatalogNames;
    NamedLikeCatalog(AvailableTools());
  }

  lemma LegacyAvailableToolsShape()
    ensures WellFormedCatalog(LegacyAvailableTools())
    ensures TerminalTool in Names(LegacyAvailableTools())
  {
    assert Names(LegacyAvailableTools()) == CatalogNames;
    NamedLikeCatalog(LegacyAvailableTools());
  }

  /** The list comprehension that renders one block per tool, in order. */
  function RenderEach<T>(tools: seq<T>, render: T -> string): (r: seq<string>)
    ensures |r| == |tools|
    ensures forall i | 0 <= i < |tools| :: r[i] == render(tools[i])
  {
    if |tools| == 0 then [] else [render(tools[0])] + RenderEach(tools[1..], render)
  }
}
