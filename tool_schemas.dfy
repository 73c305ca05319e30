/**
 * The hand-written argument schemas that replace the incomplete ones the
 * filesystem tool server advertises, keyed by tool name.
 */
module ToolSchemas {
  import opened JsonSchema

  /** `{"type": "array", "items": {"type": "string"}, "description": description}` */
  function StringArray(description: string): Json
  {
    Object(map[
      "type" := String("array"),
      "items" := Object(map["type" := String("string")]),
      "description" := String(description)])
  }

  /** The item schema of `edit_file`'s `edits`: an old text and its replacement. */
  const EditItem: Json :=
    ObjectSchema(
      map["oldText" := Object(map["type" := String("string")]),
          "newText" := Object(map["type" := String("string")])],
      ["oldText", "newText"])

  /** The `sortBy` argument of `list_directory_with_sizes`: "name" or "size". */
  const SortBy: Json :=
    Object(map[
      "type" := String("string"),
      "enum" := NameArray(["name", "size"]),
      "description" := String("排序方式（可選）")])

  /** The arguments of `read_file`. */
  const ReadFile: Json := ObjectSchema(
    map["path" := Arg("string", "檔案路徑")],
    ["path"])

  /** The arguments of `read_text_file`. */
  const ReadTextFile: Json := ObjectSchema(
    map["path" := Arg("string", "檔案路徑"),
        "head" := Arg("integer", "讀取前 N 行（可選）"),
        "tail" := Arg("integer", "讀取後 N 行（可選）")],
    ["path"])

  /** The arguments of `read_media_file`. */
  const ReadMediaFile: Json := ObjectSchema(
    map["path" := Arg("string", "媒體檔案路徑")],
    ["path"])

  /** The arguments of `read_multiple_files`. */
  const ReadMultipleFiles: Json := ObjectSchema(
    map["paths" := StringArray("檔案路徑陣列")],
    ["paths"])

  /** The arguments of `write_file`. */
  const WriteFile: Json := ObjectSchema(
    map["path" := Arg("string", "檔案路徑"),
        "content" := Arg("string", "檔案內容")],
    ["path", "content"])

  /** The arguments of `edit_file`. */
  const EditFile: Json := ObjectSchema(
    map["path" := Arg("string", "檔案路徑"),
        "edits" := Object(map[
          "type" := String("array"),
          "items" := EditItem,
          "description" := String("編輯操作陣列")]),
        "dryRun" := Arg("boolean", "僅預覽不執行（可選）")],
    ["path", "edits"])

  /** The arguments of `create_directory`. */
  const CreateDirectory: Json := ObjectSchema(
    map["path" := Arg("string", "目錄路徑")],
    ["path"])

  /** The arguments of `list_directory`. */
  const ListDirectory: Json := ObjectSchema(
    map["path" := Arg("string", "目錄路徑")],
    ["path"])

  /** The arguments of `list_directory_with_sizes`. */
  const ListDirectoryWithSizes: Json := ObjectSchema(
    map["path" := Arg("string", "目錄路徑"),
        "sortBy" := SortBy],
    ["path"])

  /** The arguments of `directory_tree`. */
  const DirectoryTree: Json := ObjectSchema(
    map["path" := Arg("string", "目錄路徑"),
        "excludePatterns" := StringArray("排除模式（可選）")],
    ["path"])

  /** The arguments of `move_file`. */
  const MoveFile: Json := ObjectSchema(
    map["source" := Arg("string", "來源路徑"),
        "destination" := Arg("string", "目標路徑")],
    ["source", "destination"])

  /** The arguments of `search_files`. */
  const SearchFiles: Json := ObjectSchema(
    map["path" := Arg("string", "搜尋起始路徑"),
        "pattern" := Arg("string", "搜尋模式"),
        "excludePatterns" := StringArray("排除模式（可選）")],
    ["path", "pattern"])

  /** The arguments of `get_file_info`. */
  const GetFileInfo: Json := ObjectSchema(
    map["path" := Arg("string", "檔案或目錄路徑")],
    ["path"])

  /** The arguments of `list_allowed_directories`. */
  const ListAllowedDirectories: Json := ObjectSchema(map[], [])

  /** The replacement schema of every tool the table knows, by tool name. */
  const Table: map<string, Json> := map[
    "read_file" := ReadFile,
    "read_text_file" := ReadTextFile,
    "read_media_file" := ReadMediaFile,
    "read_multiple_files" := ReadMultipleFiles,
    "write_file" := WriteFile,
    "edit_file" := EditFile,
    "create_directory" := CreateDirectory,
    "list_directory" := ListDirectory,
    "list_directory_with_sizes" := ListDirectoryWithSizes,
    "directory_tree" := DirectoryTree,
    "move_file" := MoveFile,
    "search_files" := SearchFiles,
    "get_file_info" := GetFileInfo,
    "list_allowed_directories" := ListAllowedDirectories
  ]

  /** An argument of a scalar type is a well-formed schema, whatever its description. */
  lemma ScalarArgsAreWellFormed()
    ensures forall t, d | t in {"string", "integer", "boolean"} :: WellFormed(Arg(t, d))
  {
  }

  /** An array of strings is a well-formed schema, whatever its description. */
  lemma StringArraysAreWellFormed()
    ensures forall d :: WellFormed(StringArray(d))
  {
    forall d ensures WellFormed(StringArray(d)) {
      assert WellFormed(StringArray(d).fields["items"]);
    }
  }

  /** An object schema of well-formed properties, requiring only names among them, is a tool schema. */
  lemma ObjectSchemasAreToolSchemas()
    ensures forall p, r | (forall k | k in p :: WellFormed(p[k])) && (forall n | n in r :: n in p)
      :: IsToolSchema(ObjectSchema(p, r))
  {
    forall p, r | (forall k | k in p :: WellFormed(p[k])) && (forall n | n in r :: n in p)
      ensures IsToolSchema(ObjectSchema(p, r))
    {
      ObjectSchemaIsToolSchema(p, r);
    }
  }

  // One lemma per entry keeps each proof obligation small.

  lemma ReadFileIsToolSchema()
    ensures IsToolSchema(ReadFile)
  {
    ScalarArgsAreWellFormed();
    ObjectSchemasAreToolSchemas();
  }

  lemma ReadTextFileIsToolSchema()
    ensures IsToolSchema(ReadTextFile)
  {
    ScalarArgsAreWellFormed();
    ObjectSchemasAreToolSchemas();
  }

  lemma ReadMediaFileIsToolSchema()
    ensures IsToolSchema(ReadMediaFile)
  {
    ScalarArgsAreWellFormed();
    ObjectSchemasAreToolSchemas();
  }

  lemma ReadMultipleFilesIsToolSchema()
    ensures IsToolSchema(ReadMultipleFiles)
  {
    ScalarArgsAreWellFormed();
    StringArraysAreWellFormed();
    ObjectSchemasAreToolSchemas();
  }

  lemma WriteFileIsToolSchema()
    ensures IsToolSchema(WriteFile)
  {
    ScalarArgsAreWellFormed();
    ObjectSchemasAreToolSchemas();
  }

  lemma EditFileIsToolSchema()
    ensures IsToolSchema(EditFile)
  {
    ScalarArgsAreWellFormed();
    ObjectSchemasAreToolSchemas();
    assert IsToolSchema(EditItem);
  }

  lemma CreateDirectoryIsToolSchema()
    ensures IsToolSchema(CreateDirectory)
  {
    ScalarArgsAreWellFormed();
    ObjectSchemasAreToolSchemas();
  }

  lemma ListDirectoryIsToolSchema()
    ensures IsToolSchema(ListDirectory)
  {
    ScalarArgsAreWellFormed();
    ObjectSchemasAreToolSchemas();
  }

  lemma ListDirectoryWithSizesIsToolSchema()
    ensures IsToolSchema(ListDirectoryWithSizes)
  {
    ScalarArgsAreWellFormed();
    ObjectSchemasAreToolSchemas();
    assert WellFormed(SortBy);
  }

  lemma DirectoryTreeIsToolSchema()
    ensures IsToolSchema(DirectoryTree)
  {
    ScalarArgsAreWellFormed();
    StringArraysAreWellFormed();
    ObjectSchemasAreToolSchemas();
  }

  lemma MoveFileIsToolSchema()
    ensures IsToolSchema(MoveFile)
  {
    ScalarArgsAreWellFormed();
    ObjectSchemasAreToolSchemas();
  }

  lemma SearchFilesIsToolSchema()
    ensures IsToolSchema(SearchFiles)
  {
    ScalarArgsAreWellFormed();
    StringArraysAreWellFormed();
    ObjectSchemasAreToolSchemas();
  }

  lemma GetFileInfoIsToolSchema()
    ensures IsToolSchema(GetFileInfo)
  {
    ScalarArgsAreWellFormed();
    ObjectSchemasAreToolSchemas();
  }

  lemma ListAllowedDirectoriesIsToolSchema()
    ensures IsToolSchema(ListAllowedDirectories)
  {
    ScalarArgsAreWellFormed();
    ObjectSchemasAreToolSchemas();
  }

  // The entries two at a time, for the same reason.

  lemma EntriesAreToolSchemas1(name: string)
    requires name in {"read_file", "read_text_file"}
    ensures name in Table && IsToolSchema(Table[name])
  {
    ReadFileIsToolSchema();
    ReadTextFileIsToolSchema();
  }

  lemma EntriesAreToolSchemas2(name: string)
    requires name in {"read_media_file", "read_multiple_files"}
    ensures name in Table && IsToolSchema(Table[name])
  {
    ReadMediaFileIsToolSchema();
    ReadMultipleFilesIsToolSchema();
  }

  lemma EntriesAreToolSchemas3(name: string)
    requires name in {"write_file", "edit_file"}
    ensures name in Table && IsToolSchema(Table[name])
  {
    WriteFileIsToolSchema();
    EditFileIsToolSchema();
  }

  lemma EntriesAreToolSchemas4(name: string)
    requires name in {"create_directory", "list_directory"}
    ensures name in Table && IsToolSchema(Table[name])
  {
    CreateDirectoryIsToolSchema();
    ListDirectoryIsToolSchema();
  }

  lemma EntriesAreToolSchemas5(name: string)
    requires name in {"list_directory_with_sizes", "directory_tree"}
    ensures name in Table && IsToolSchema(Table[name])
  {
    ListDirectoryWithSizesIsToolSchema();
    DirectoryTreeIsToolSchema();
  }

  lemma EntriesAreToolSchemas6(name: string)
    requires name in {"move_file", "search_files"}
    ensures name in Table && IsToolSchema(Table[name])
  {
    MoveFileIsToolSchema();
    SearchFilesIsToolSchema();
  }

  lemma EntriesAreToolSchemas7(name: string)
    requires name in {"get_file_info", "list_allowed_directories"}
    ensures name in Table && IsToolSchema(Table[name])
  {
    GetFileInfoIsToolSchema();
    ListAllowedDirectoriesIsToolSchema();
  }

  /** The table's entry for a known tool name is a tool schema. */
  lemma EntryIsToolSchema(name: string)
    requires name in Table
    ensures IsToolSchema(Table[name])
  {
    if name in {"read_file", "read_text_file"} {
      EntriesAreToolSchemas1(name);
    } else if name in {"read_media_file", "read_multiple_files"} {
      EntriesAreToolSchemas2(name);
    } else if name in {"write_file", "edit_file"} {
      EntriesAreToolSchemas3(name);
    } else if name in {"create_directory", "list_directory"} {
      EntriesAreToolSchemas4(name);
    } else if name in {"list_directory_with_sizes", "directory_tree"} {
      EntriesAreToolSchemas5(name);
    } else if name in {"move_file", "search_files"} {
      EntriesAreToolSchemas6(name);
    } else {
      EntriesAreToolSchemas7(name);
    }
  }

  /** Every entry of the table is a tool schema: type "object", required names among its properties. */
  lemma TableIsWellFormed()
    ensures forall name | name in Table :: IsToolSchema(Table[name])
  {
    forall name | name in Table ensures IsToolSchema(Table[name]) {
      EntryIsToolSchema(name);
    }
  }

  /** `list_allowed_directories` takes no arguments: its properties and its required names are empty. */
  lemma ListAllowedDirectoriesTakesNoArguments()
    ensures "list_allowed_directories" in Table
    ensures IsToolSchema(Table["list_allowed_directories"])
    ensures Properties(Table["list_allowed_directories"]) == map[]
    ensures Required(Table["list_allowed_directories"]) == {}
  {
    ListAllowedDirectoriesIsToolSchema();
    NameArrayNames([]);
  }
}
