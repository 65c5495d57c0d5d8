/** The business analyst's one writing tool: requirement documents only,
    answered with a JSON object rather than an exception. */
module BaTools {
  import opened Wrappers
  import opened Text
  import opened FileTools

  /** The extensions a requirement document may have, compared in lower case. */
  const AllowedExtensions: seq<string> := [".md", ".markdown", ".yaml", ".yml"]

  const ExtensionError: string :=
    "BA can only write requirement documents with extensions: ('.md', '.markdown', '.yaml', '.yml')."

  predicate HasAllowedExtension(path: string) {
    exists e :: e in AllowedExtensions && EndsWith(Lower(path), e)
  }

  /** The JSON object the tool answers with. */
  datatype DocReply =
    | DocError(error: string, erroredPath: Option<string>)
    | DocWritten(path: string, size: nat, checksum: string, dryRun: bool)

  /** The reply, or the exception that escapes the tool, and what it writes. */
  datatype DocOutcome = DocOutcome(reply: Result<DocReply, Raised>, effect: Option<FileWrite>)

  /** Writing a requirement document. The extension is checked before the
      path is looked at; the path guards' errors come back as error JSON,
      while the `ValueError` of `relative_to` and the operating system's
      errors from the write escape the `except` clause, which catches only
      the tools' own error. */
  function BaWriteRequirementDoc(path: string, content: string, projectId: string, dryRun: bool,
                                 workspace: PurePath, resolve: Resolver,
                                 checksum: string -> string, disk: Disk): (r: DocOutcome)
    ensures !HasAllowedExtension(path) ==>
      r == DocOutcome(Success(DocError(ExtensionError, Some(path))), None)
    ensures r.effect.Some? ==> !dryRun && r.reply.Success? && r.reply.value.DocWritten?
    ensures r.reply.Failure? ==> r.reply.error == NotRelative || r.reply.error.OsError?
    ensures r.reply.Failure? && r.reply.error.OsError? ==>
      && !dryRun
      && ResolveAndValidate(path, projectId, workspace, resolve).Success?
      && disk(FileWrite(ResolveAndValidate(path, projectId, workspace, resolve).value, content))
         == Some(r.reply.error.message)
    ensures r.effect.Some? ==> disk(r.effect.value).None?
    ensures HasAllowedExtension(path) && ResolveAndValidate(path, projectId, workspace, resolve).Failure? ==>
      r == DocOutcome(Success(DocError("Cannot write requirement document: "
                                       + ResolveAndValidate(path, projectId, workspace, resolve).error.message,
                                       None)), None)
    ensures r.reply.Success? && r.reply.value.DocWritten? ==>
      && HasAllowedExtension(path)
      && r.reply.value.size == Utf8Length(content) <= MaxFileBytes
      && r.reply.value.dryRun == dryRun
      && r.reply.value.checksum == checksum(content)
    ensures r.reply.Success? && r.reply.value.DocError? && r.reply.value.error == "File too large" ==>
      Utf8Length(content) > MaxFileBytes
  {
    if !HasAllowedExtension(path) then
      DocOutcome(Success(DocError(ExtensionError, Some(path))), None)
    else match ResolveAndValidate(path, projectId, workspace, resolve)
      case Failure(e) =>
        DocOutcome(Success(DocError("Cannot write requirement document: " + e.message, None)), None)
      case Success(target) =>
        match RelativeTo(target, ProjectRoot(workspace, projectId))
        case None => DocOutcome(Failure(NotRelative), None)
        case Some(rel) =>
          var size := Utf8Length(content);
          if size > MaxFileBytes then DocOutcome(Success(DocError("File too large", None)), None)
          else
            var reply := DocWritten(rel, size, checksum(content), dryRun);
            if dryRun then DocOutcome(Success(reply), None)
            else match disk(FileWrite(target, content))
              case Some(e) => DocOutcome(Failure(OsError(e)), None)
              case None => DocOutcome(Success(reply), Some(FileWrite(target, content)))
  }

  /** For an allowed document, the tool reports and writes exactly what the
      general write tool does: same path, size and checksum, same effect,
      and the same escaping errors. */
  lemma AgreesWithWriteFile(path: string, content: string, projectId: string, dryRun: bool,
                            workspace: PurePath, resolve: Resolver, checksum: string -> string, disk: Disk)
    requires HasAllowedExtension(path)
    ensures var doc := BaWriteRequirementDoc(path, content, projectId, dryRun, workspace, resolve, checksum, disk);
      var w := WriteFile(path, content, projectId, dryRun, workspace, resolve, checksum, disk);
      && (w.result.Success? <==> doc.reply.Success? && doc.reply.value.DocWritten?)
      && (w.result.Success? ==>
            doc.reply.value == DocWritten(w.result.value.relPath, w.result.value.size,
                                          w.result.value.checksum, dryRun))
      && doc.effect == w.effect
      && (w.result.Failure? && !w.result.error.ToolError? <==> doc.reply.Failure?)
      && (doc.reply.Failure? ==> doc.reply.error == w.result.error)
  {
  }

  /** A string ending in `e` ends in `e`'s last character. */
  lemma EndsWithLast(s: string, e: string)
    requires |e| > 0 && EndsWith(s, e)
    ensures s[|s| - 1] == e[|e| - 1]
  {
    assert s[|s| - |e|..][|e| - 1] == s[|s| - 1];
  }

  /** Whatever its other letters, a path ending in ".py" is not a
      requirement document. */
  lemma PythonSourceRefused(path: string)
    requires EndsWith(Lower(path), ".py")
    ensures !HasAllowedExtension(path)
  {
    var l := Lower(path);
    EndsWithLast(l, ".py");
    forall e | e in AllowedExtensions
      ensures !EndsWith(l, e)
    {
      if EndsWith(l, e) {
        EndsWithLast(l, e);
      }
    }
  }

  /** The case of the extension does not matter. */
  lemma UpperCaseMarkdownAllowed(stem: string)
    ensures HasAllowedExtension(stem + ".MD")
  {
    var s := stem + ".MD";
    var l := Lower(s);
    assert s[|stem|] == '.' && s[|stem| + 1] == 'M' && s[|stem| + 2] == 'D';
    assert l[|stem|] == '.' && l[|stem| + 1] == 'm' && l[|stem| + 2] == 'd';
    assert l[|l| - 3..] == ".md";
    assert EndsWith(l, AllowedExtensions[0]);
  }
}
