/**
 * The code editor's state and its transitions: the initial tab list,
 * editing, adding and closing tabs, saving, the theme switch and the
 * status bar's line and column.
 */
module Editor {
  import opened Wrappers
  import opened Seqs
  import opened Js

  datatype File = File(id: string, name: string, language: string, content: string, modified: bool)

  datatype Theme = Dark | Light

  datatype EditorState = EditorState(files: seq<File>, activeFileId: string, theme: Theme,
                                     fontSize: int, showMinimap: bool, lineNumbers: bool)

  /** The sample file shown when no files are supplied. */
  const ExampleFile := File("1", "example.tsx", "typescript",
    "import React from 'react';\n\nexport default function App() {\n  return (\n    <div className=\"p-8\">\n      <h1>IDE Editor</h1>\n    </div>\n  );\n}",
    false)

  /** The editor's first state: the supplied files with the first active, else the sample file. */
  function Initial(initialFiles: seq<File>): (st: EditorState)
    ensures initialFiles != [] ==> st.files == initialFiles && st.activeFileId == initialFiles[0].id
    ensures initialFiles == [] ==> st.files == [ExampleFile] && st.activeFileId == "1"
    ensures st.theme == Dark && st.fontSize == 14 && st.showMinimap && st.lineNumbers
  {
    EditorState(if |initialFiles| > 0 then initialFiles else [ExampleFile],
                if |initialFiles| > 0 then initialFiles[0].id else "1",
                Dark, 14, true, true)
  }

  /** `files.find(f => f.id === activeFileId)`: the first file with the active id. */
  function ActiveFile(st: EditorState): (f: Option<File>)
    ensures f.None? <==> forall i :: 0 <= i < |st.files| ==> st.files[i].id != st.activeFileId
    ensures f.Some? ==> f.value in st.files && f.value.id == st.activeFileId
  {
    FindId(st.files, st.activeFileId)
  }

  function FindId(files: seq<File>, id: string): (f: Option<File>)
    ensures f.None? <==> forall i :: 0 <= i < |files| ==> files[i].id != id
    ensures f.Some? ==> exists i :: 0 <= i < |files| && files[i] == f.value && f.value.id == id
                                    && forall j :: 0 <= j < i ==> files[j].id != id
  {
    if files == [] then None
    else if files[0].id == id then Some(files[0])
    else
      var r := FindId(files[1..], id);
      if r.Some? then
        ghost var i :| 0 <= i < |files[1..]| && files[1..][i] == r.value && r.value.id == id
                      && forall j :: 0 <= j < i ==> files[1..][j].id != id;
        assert files[i + 1] == r.value;
        r
      else r
  }

  /**
   * `updateFileContent(id, content)`: every file with that id gets the new
   * content and is marked modified; all other files are unchanged.
   */
  function UpdateFileContent(st: EditorState, fileId: string, content: string): (r: EditorState)
    ensures |r.files| == |st.files|
    ensures forall i :: 0 <= i < |st.files| && st.files[i].id == fileId ==>
              r.files[i] == st.files[i].(content := content, modified := true)
    ensures forall i :: 0 <= i < |st.files| && st.files[i].id != fileId ==> r.files[i] == st.files[i]
    ensures r.activeFileId == st.activeFileId && r.theme == st.theme
  {
    st.(files := seq(|st.files|, i requires 0 <= i < |st.files| =>
                  if st.files[i].id == fileId then st.files[i].(content := content, modified := true)
                  else st.files[i]))
  }

  /** `addNewFile` at time `now`: an empty, unmodified 'untitled.tsx' goes last and becomes active. */
  function AddNewFile(st: EditorState, now: int): (r: EditorState)
    ensures r.files == st.files + [File(IntToString(now), "untitled.tsx", "typescript", "", false)]
    ensures r.activeFileId == IntToString(now) && r.theme == st.theme
  {
    var newFile := File(IntToString(now), "untitled.tsx", "typescript", "", false);
    st.(files := st.files + [newFile], activeFileId := newFile.id)
  }

  /**
   * `closeFile(id)`: drops every file with that id; the first remaining file
   * becomes active, whichever file was active before, or none is.
   */
  function CloseFile(st: EditorState, fileId: string): (r: EditorState)
    ensures forall f :: f in r.files <==> f in st.files && f.id != fileId
    ensures Subsequence(r.files, st.files)
    ensures r.files == Filter(st.files, (f: File) => f.id != fileId)
    ensures r.files == [] ==> r.activeFileId == ""
    ensures r.files != [] ==> r.activeFileId == r.files[0].id
    ensures r.theme == st.theme
  {
    var remaining := Filter(st.files, (f: File) => f.id != fileId);
    FilterSubsequence(st.files, (f: File) => f.id != fileId);
    forall f ensures f in remaining <==> f in st.files && f.id != fileId {
      FilterIn(st.files, (f: File) => f.id != fileId, f);
    }
    st.(files := remaining, activeFileId := if |remaining| > 0 then remaining[0].id else "")
  }

  /**
   * `saveFiles`: the files as they stand go to the save callback, when there
   * is one; then every file is marked unmodified, its content kept.
   */
  function SaveFiles(st: EditorState, hasOnSave: bool): (r: (Option<seq<File>>, EditorState))
    ensures r.0 == (if hasOnSave then Some(st.files) else None)
    ensures |r.1.files| == |st.files|
    ensures forall i :: 0 <= i < |st.files| ==> r.1.files[i] == st.files[i].(modified := false)
    ensures r.1.activeFileId == st.activeFileId
  {
    (if hasOnSave then Some(st.files) else None,
     st.(files := seq(|st.files|, i requires 0 <= i < |st.files| => st.files[i].(modified := false))))
  }

  function ToggleTheme(st: EditorState): (r: EditorState)
    ensures r.theme != st.theme
    ensures r.files == st.files && r.activeFileId == st.activeFileId
  {
    st.(theme := if st.theme == Dark then Light else Dark)
  }

  // ------------------------------------------------------------ status bar

  function CountChar(s: string, c: char): nat
  {
    if s == [] then 0 else (if s[0] == c then 1 else 0) + CountChar(s[1..], c)
  }

  /** `s.split('\n')`: the pieces between line breaks, the last possibly empty. */
  function SplitLines(s: string): (lines: seq<string>)
    ensures |lines| >= 1
    ensures forall i :: 0 <= i < |lines| ==> '\n' !in lines[i]
    decreases |s|
  {
    if '\n' !in s then [s]
    else
      var i := FirstIndex(s, '\n');
      [s[..i]] + SplitLines(s[i + 1..])
  }

  /** There is one more piece than there are line breaks. */
  lemma {:induction false} SplitCount(s: string)
    ensures |SplitLines(s)| == CountChar(s, '\n') + 1
    decreases |s|
  {
    if '\n' !in s {
      CountAbsent(s, '\n');
    } else {
      var i := FirstIndex(s, '\n');
      CountSplit(s, i, '\n');
      SplitCount(s[i + 1..]);
    }
  }

  lemma {:induction false} CountAbsent(s: string, c: char)
    requires c !in s
    ensures CountChar(s, c) == 0
  {
    if s != [] {
      CountAbsent(s[1..], c);
    }
  }

  /** Splitting at the first occurrence accounts for exactly one of them. */
  lemma {:induction false} CountSplit(s: string, i: nat, c: char)
    requires i < |s| && s[i] == c && c !in s[..i]
    ensures CountChar(s, c) == 1 + CountChar(s[i + 1..], c)
  {
    if i > 0 {
      assert s[1..][..i - 1] == s[..i][1..];
      CountSplit(s[1..], i - 1, c);
      assert s[1..][i..] == s[i + 1..];
    }
  }

  /** Joining the pieces with line breaks gives back the text. */
  lemma {:induction false} SplitJoin(s: string)
    ensures Join(SplitLines(s), "\n") == s
    decreases |s|
  {
    if '\n' in s {
      var i := FirstIndex(s, '\n');
      var rest := SplitLines(s[i + 1..]);
      SplitJoin(s[i + 1..]);
      assert SplitLines(s) == [s[..i]] + rest;
      assert s == s[..i] + "\n" + s[i + 1..];
    }
  }

  /** The last piece is the text after the last line break (all of it when there is none). */
  lemma {:induction false} LastLine(s: string)
    ensures |LastPiece(s)| <= |s| && LastPiece(s) == s[|s| - |LastPiece(s)|..]
    ensures |LastPiece(s)| == |s| || s[|s| - |LastPiece(s)| - 1] == '\n'
    decreases |s|
  {
    if '\n' in s {
      var i := FirstIndex(s, '\n');
      var rest := s[i + 1..];
      LastLine(rest);
      LastOfSplit(s, i);
      BreakBeforeSuffix(s, i, LastPiece(rest));
    } else {
      assert SplitLines(s) == [s];
    }
  }

  /** The last piece of the split. */
  function LastPiece(s: string): string
  {
    var lines := SplitLines(s);
    lines[|lines| - 1]
  }

  /** Splitting at the first line break leaves the last piece to the rest of the text. */
  lemma LastOfSplit(s: string, i: nat)
    requires '\n' in s && i == FirstIndex(s, '\n')
    ensures LastPiece(s) == LastPiece(s[i + 1..])
  {
    var rest := SplitLines(s[i + 1..]);
    var all := SplitLines(s);
    assert all == [s[..i]] + rest;
    assert all[|all| - 1] == rest[|rest| - 1];
  }

  /**
   * A piece that ends the text after position `i` and starts at a line break
   * or at `i + 1`, where `s[i]` is a line break, ends `s` and starts after a
   * line break.
   */
  lemma BreakBeforeSuffix(s: string, i: nat, last: string)
    requires i < |s| && s[i] == '\n'
    requires |last| <= |s| - i - 1 && last == s[i + 1..][|s| - i - 1 - |last|..]
    requires |last| == |s| - i - 1 || s[i + 1..][|s| - i - 1 - |last| - 1] == '\n'
    ensures |last| <= |s| && last == s[|s| - |last|..]
    ensures |last| == |s| || s[|s| - |last| - 1] == '\n'
  {
    var k := |s| - i - 1 - |last|;
    assert s[i + 1..][k..] == s[|s| - |last|..];
    if k > 0 {
      assert s[i + 1..][k - 1] == s[|s| - |last| - 1];
    } else {
      assert |s| - |last| - 1 == i;
    }
  }

  /** The status bar's `Ln` and `Col`: line-break count plus one, and one past the last line's `.length`. */
  function Position(content: string): (p: (nat, nat))
    ensures p.0 == CountChar(content, '\n') + 1
  {
    SplitCount(content);
    var lines := SplitLines(content);
    (|lines|, Utf16Length(lines[|lines| - 1]) + 1)
  }

  /** The status bar shows a position only while an open file has the active id. */
  function StatusBar(st: EditorState): (pos: Option<(nat, nat)>)
    ensures pos.Some? <==> ActiveFile(st).Some?
    ensures pos.Some? ==> pos.value.0 == CountChar(ActiveFile(st).value.content, '\n') + 1
  {
    var f := ActiveFile(st);
    if f.Some? then Some(Position(f.value.content)) else None
  }

  // ----------------------------------------------------------- properties

  /** Toggling the theme twice restores it. */
  lemma ToggleTwice(st: EditorState)
    ensures ToggleTheme(ToggleTheme(st)) == st
  {
  }

  /** Saving twice is the same as saving once. */
  lemma SaveIdempotent(st: EditorState, hasOnSave: bool)
    ensures SaveFiles(SaveFiles(st, hasOnSave).1, hasOnSave).1 == SaveFiles(st, hasOnSave).1
  {
  }

  /** After a close, the active file, if any, is the first remaining file. */
  lemma CloseActivatesFirst(st: EditorState, fileId: string)
    ensures var r := CloseFile(st, fileId);
            ActiveFile(r) == (if r.files == [] then None else Some(r.files[0]))
  {
  }

  /** A newly added file is the active one, unless an older file already had its id. */
  lemma AddedFileActive(st: EditorState, now: int)
    requires forall i :: 0 <= i < |st.files| ==> st.files[i].id != IntToString(now)
    ensures ActiveFile(AddNewFile(st, now)) == Some(File(IntToString(now), "untitled.tsx", "typescript", "", false))
  {
    var r := AddNewFile(st, now);
    var f := ActiveFile(r);
    var i :| 0 <= i < |r.files| && r.files[i] == f.value && f.value.id == r.activeFileId
             && forall j :: 0 <= j < i ==> r.files[j].id != r.activeFileId;
    assert i == |st.files|;
  }

  /** The column is one past the length, in UTF-16 code units, of the text after the last line break. */
  lemma ColumnAfterLastBreak(content: string, k: nat)
    requires k < |content| && content[k] == '\n'
    requires forall j :: k < j < |content| ==> content[j] != '\n'
    ensures Position(content).1 == Utf16Length(content[k + 1..]) + 1
  {
    LastLine(content);
    var last := LastPiece(content);
    assert last == content[k + 1..];
  }

  /** On the first line the column is one past the length of the whole text. */
  lemma ColumnOnFirstLine(content: string)
    requires '\n' !in content
    ensures Position(content).1 == Utf16Length(content) + 1
  {
    assert SplitLines(content) == [content];
  }
}
