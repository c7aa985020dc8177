/** The KEY=value credentials file (`desktop/dotenv.go`): `removeEnvFile` drops the lines of
    a key, `envFileKeys` lists the keys. The two read a line in slightly different ways; the
    theorem says for exactly which keys they agree. */
module Dotenv {
  import opened GoStrings

  function Split(s: string): (r: seq<string>)
    ensures r != []
    ensures forall i :: 0 <= i < |r| ==> '\n' !in r[i]
    decreases |s|
  {
    var i := IndexOf(s, '\n');
    if i == |s| then [s] else [s[..i]] + Split(s[i + 1..])
  }

  function Join(lines: seq<string>): string {
    if lines == [] then "" else if |lines| == 1 then lines[0] else lines[0] + "\n" + Join(lines[1..])
  }

  function TrimNewlines(s: string): string {
    if s != "" && s[|s| - 1] == '\n' then TrimNewlines(s[..|s| - 1]) else s
  }

  predicate Comment(s: string) { s != "" && s[0] == '#' }

  function Body(line: string): string { TrimPrefix(TrimSpace(line), "export ") }

  /** What `envFileKeys` finds in a line. */
  function ListedKey(line: string): Option<string> {
    var body := Body(line);
    var i := IndexOf(body, '=');
    if body == "" || Comment(body) || i == |body| then None else Some(TrimSpace(body[..i]))
  }

  /** Whether `removeEnvFile` takes a line for the key: it trims once more before it looks
      for a comment. */
  predicate Removes(line: string, key: string) {
    var t := TrimSpace(Body(line));
    var i := IndexOf(t, '=');
    t != "" && !Comment(t) && i < |t| && TrimSpace(t[..i]) == key
  }

  function Keep(lines: seq<string>, key: string): seq<string> {
    if lines == [] then []
    else if Removes(lines[0], key) then Keep(lines[1..], key)
    else [lines[0]] + Keep(lines[1..], key)
  }

  function KeysOf(lines: seq<string>): set<string> {
    if lines == [] then {}
    else (if ListedKey(lines[0]).Some? then {ListedKey(lines[0]).value} else {}) + KeysOf(lines[1..])
  }

  function Text(lines: seq<string>): string { if lines == [] then "" else Join(lines) + "\n" }

  function Remove(file: Option<string>, key: string): Option<string> {
    if TrimSpace(key) == "" || file.None? then file
    else Some(Text(Keep(Split(TrimNewlines(file.value)), TrimSpace(key))))
  }

  function Keys(file: Option<string>): set<string> { if file.None? then {} else KeysOf(Split(file.value)) }

  class EnvFile {
    var content: Option<string>

    constructor (content: Option<string>)
      ensures this.content == content
    {
      this.content := content;
    }

    method RemoveEnvFile(rawKey: string)
      modifies this
      ensures content == Remove(old(content), rawKey)
      ensures Blank(rawKey) || old(content).None? ==> content == old(content)
    {
      hide Removes, Split, Join, TrimNewlines, TrimSpace, Blank;
      TrimSpaceBlankIff(rawKey);
      var key := TrimSpace(rawKey);
      if key == "" || content.None? {
        return;
      }
      var lines := Split(TrimNewlines(content.value));
      var outLines: seq<string> := [];
      for i := 0 to |lines|
        invariant outLines + Keep(lines[i..], key) == Keep(lines, key)
      {
        KeepTurn(lines[i..], key, outLines);
        assert lines[i..][0] == lines[i] && lines[i..][1..] == lines[i + 1..];
        if Removes(lines[i], key) {
          continue;
        }
        outLines := outLines + [lines[i]];
      }
      assert lines[|lines|..] == [] && outLines + [] == outLines;
      content := Some(Text(outLines));
    }

    method EnvFileKeys() returns (keys: set<string>)
      ensures keys == Keys(content)
      ensures content.None? ==> keys == {}
      ensures content.Some? ==>
                forall k :: k in keys <==> exists line :: line in Split(content.value) && ListedKey(line) == Some(k)
    {
      hide ListedKey, Split;
      keys := {};
      if content.None? {
        return;
      }
      var lines := Split(content.value);
      for i := 0 to |lines|
        invariant keys + KeysOf(lines[i..]) == KeysOf(lines)
      {
        assert lines[i..][0] == lines[i] && lines[i..][1..] == lines[i + 1..];
        var key := ListedKey(lines[i]);
        if key.Some? {
          keys := keys + {key.value};
        }
      }
      forall k ensures k in keys <==> exists line :: line in lines && ListedKey(line) == Some(k) {
        ListedBySomeLine(lines, k);
      }
    }
  }

  lemma KeepTurn(lines: seq<string>, key: string, out: seq<string>)
    requires lines != []
    ensures out + Keep(lines, key) ==
            if Removes(lines[0], key) then out + Keep(lines[1..], key) else out + [lines[0]] + Keep(lines[1..], key)
  {
    hide Removes;
    if !Removes(lines[0], key) {
      ConcatAssoc(out, [lines[0]], Keep(lines[1..], key));
    }
  }

  lemma ConcatAssoc(a: seq<string>, b: seq<string>, c: seq<string>)
    ensures a + (b + c) == a + b + c
  {
  }

  // ---- lines and text ----

  lemma {:induction false} IndexOfConcat(a: string, b: string, c: char)
    requires c !in a
    ensures IndexOf(a + b, c) == |a| + IndexOf(b, c)
  {
    if a == "" {
      assert a + b == b;
    } else {
      IndexOfConcat(a[1..], b, c);
      assert (a + b)[1..] == a[1..] + b;
    }
  }

  lemma SplitFirst(line: string, rest: string)
    requires '\n' !in line
    ensures Split(line + "\n" + rest) == [line] + Split(rest)
  {
    var s := line + "\n" + rest;
    assert s == line + ("\n" + rest);
    IndexOfConcat(line, "\n" + rest, '\n');
    assert s[..|line|] == line && s[|line| + 1..] == rest;
  }

  lemma {:induction false} SplitText(lines: seq<string>)
    requires lines != [] && forall i :: 0 <= i < |lines| ==> '\n' !in lines[i]
    ensures Split(Join(lines) + "\n") == lines + [""]
  {
    hide Split;
    if |lines| == 1 {
      SplitFirst(lines[0], "");
      assert lines[0] + "\n" + "" == lines[0] + "\n";
      SplitNothing();
      assert lines == [lines[0]];
    } else {
      SplitText(lines[1..]);
      SplitFirst(lines[0], Join(lines[1..]) + "\n");
      assert Join(lines) + "\n" == lines[0] + "\n" + (Join(lines[1..]) + "\n");
      assert lines + [""] == [lines[0]] + (lines[1..] + [""]);
    }
  }

  lemma SplitNothing()
    ensures Split("") == [""]
  {
  }

  lemma SplitStep(s: string)
    ensures var i := IndexOf(s, '\n');
            Split(s) == if i == |s| then [s] else [s[..i]] + Split(s[i + 1..])
  {
    hide IndexOf;
  }

  lemma {:induction false} SplitAfterNewline(s: string)
    ensures Split(s + "\n") == Split(s) + [""]
    decreases |s|
  {
    hide Split, IndexOf;
    SplitStep(s);
    var i := IndexOf(s, '\n');
    if i == |s| {
      SplitFirst(s, "");
      SplitNothing();
      assert s + "\n" + "" == s + "\n";
    } else {
      SplitFirst(s[..i], s[i + 1..] + "\n");
      assert s + "\n" == s[..i] + "\n" + (s[i + 1..] + "\n");
      SplitAfterNewline(s[i + 1..]);
      ConcatAssoc([s[..i]], Split(s[i + 1..]), [""]);
    }
  }

  lemma KeysOfBlank(lines: seq<string>)
    ensures KeysOf(lines + [""]) == KeysOf(lines)
  {
    hide KeysOf;
    KeysOfConcat(lines, [""]);
    NoKeyInBlank();
  }

  lemma NoKeyInBlank()
    ensures KeysOf([""]) == {}
  {
    assert TrimSpace("") == "";
  }

  lemma {:induction false} KeysOfConcat(a: seq<string>, b: seq<string>)
    ensures KeysOf(a + b) == KeysOf(a) + KeysOf(b)
  {
    hide ListedKey;
    if a == [] {
      assert a + b == b;
    } else {
      KeysOfConcat(a[1..], b);
      assert (a + b)[1..] == a[1..] + b;
    }
  }

  /** Trailing newlines hold no key. */
  lemma {:induction false} KeysWithoutNewlines(s: string)
    ensures KeysOf(Split(TrimNewlines(s))) == KeysOf(Split(s))
  {
    hide Split, KeysOf;
    if s != "" && s[|s| - 1] == '\n' {
      var s' := s[..|s| - 1];
      KeysWithoutNewlines(s');
      SplitAfterNewline(s');
      assert s == s' + "\n";
      KeysOfBlank(Split(s'));
    }
  }

  lemma {:induction false} KeepLines(lines: seq<string>, key: string)
    requires forall i :: 0 <= i < |lines| ==> '\n' !in lines[i]
    ensures forall i :: 0 <= i < |Keep(lines, key)| ==> '\n' !in Keep(lines, key)[i]
  {
    hide Removes;
    if lines != [] {
      KeepLines(lines[1..], key);
    }
  }

  /** The new file has exactly the lines kept, unchanged and in order, and ends with one
      newline; what newlines ended the old one does not matter. */
  lemma OtherLinesKept(text: string, key: string)
    requires TrimSpace(key) != ""
    ensures Remove(Some(text), key).Some?
    ensures Split(Remove(Some(text), key).value) == Keep(Split(TrimNewlines(text)), TrimSpace(key)) + [""]
  {
    hide Split, Join, TrimNewlines, TrimSpace, Keep;
    var lines := Split(TrimNewlines(text));
    KeepLines(lines, TrimSpace(key));
    var kept := Keep(lines, TrimSpace(key));
    if kept == [] {
      SplitNothing();
    } else {
      SplitText(kept);
    }
  }

  // ---- the two readings of a line ----

  lemma {:induction false} TrimLeftBlank(blank: string, s: string)
    requires forall i :: 0 <= i < |blank| ==> IsSpace(blank[i])
    ensures TrimLeft(blank + s) == TrimLeft(s)
  {
    hide IsSpace;
    if blank == "" {
      assert blank + s == s;
    } else {
      assert (blank + s)[1..] == blank[1..] + s;
      TrimLeftBlank(blank[1..], s);
    }
  }

  /** Trimming takes white space off both ends. */
  lemma TrimSpaceParts(s: string) returns (a: string, b: string)
    ensures s == a + TrimSpace(s) + b
    ensures forall i :: 0 <= i < |a| ==> IsSpace(a[i])
    ensures forall i :: 0 <= i < |b| ==> IsSpace(b[i])
    ensures TrimSpace(s) != "" ==> !IsSpace(TrimSpace(s)[0])
  {
    hide IsSpace, TrimLeft, TrimRight;
    var l := TrimLeft(s);
    var t := TrimRight(l);
    TrimLeftSpec(s);
    TrimRightSpec(l);
    a, b := s[..|s| - |l|], l[|t|..];
    assert l == t + b;
    assert s == a + l;
  }

  lemma NoEqualsInBlank(s: string)
    requires forall i :: 0 <= i < |s| ==> IsSpace(s[i])
    ensures '=' !in s
  {
  }

  /** A name cut off before the '=' is the same whether or not the line was trimmed. */
  lemma CutTrimmed(body: string)
    ensures var t := TrimSpace(body);
            && (IndexOf(t, '=') == |t| <==> IndexOf(body, '=') == |body|)
            && TrimSpace(t[..IndexOf(t, '=')]) == TrimSpace(body[..IndexOf(body, '=')])
  {
    hide *;
    var a, b := TrimSpaceParts(body);
    var t := TrimSpace(body);
    var i := IndexOf(t, '=');
    NoEqualsInBlank(a);
    NoEqualsInBlank(b);
    ConcatThree(a, t, b);
    IndexOfConcat(a, t + b, '=');
    if i == |t| {
      IndexOfConcat(t, b, '=');
      IndexOfNowhere(b, '=');
      TrimSpaceTwice(body);
      assert t[..i] == t && body[..|body|] == body;
    } else {
      IndexOfPrefix(t, b, '=');
      assert body[..|a| + i] == a + t[..i];
      TrimSpaceBlank(a, t[..i]);
    }
  }

  lemma ConcatThree(a: string, b: string, c: string)
    ensures a + (b + c) == a + b + c
  {
  }

  lemma TrimSpaceBlank(blank: string, s: string)
    requires forall i :: 0 <= i < |blank| ==> IsSpace(blank[i])
    ensures TrimSpace(blank + s) == TrimSpace(s)
  {
    TrimLeftBlank(blank, s);
  }

  lemma TrimSpaceTwice(s: string)
    ensures TrimSpace(TrimSpace(s)) == TrimSpace(s)
  {
    TrimSpaceIdempotent(s);
  }

  lemma IndexOfNowhere(s: string, c: char)
    requires c !in s
    ensures IndexOf(s, c) == |s|
  {
    hide IndexOf;
  }

  lemma {:induction false} IndexOfPrefix(s: string, t: string, c: char)
    requires IndexOf(s, c) < |s|
    ensures IndexOf(s + t, c) == IndexOf(s, c)
  {
    if s[0] != c {
      IndexOfPrefix(s[1..], t, c);
      assert (s + t)[1..] == s[1..] + t;
    }
  }

  /** A non-empty name starts as the trimmed line does. */
  lemma NameStartsLine(t: string, i: nat)
    requires i <= |t| && t != "" && !IsSpace(t[0]) && TrimSpace(t[..i]) != ""
    ensures TrimSpace(t[..i])[0] == t[0]
  {
    hide IsSpace;
    assert TrimLeft(t[..i]) == t[..i];
    TrimRightSpec(t[..i]);
  }

  lemma FirstOf(a: string, t: string, b: string)
    requires Comment(a + t + b)
    requires forall i :: 0 <= i < |a| ==> IsSpace(a[i])
    requires forall i :: 0 <= i < |b| ==> IsSpace(b[i])
    ensures Comment(t)
  {
    HashNoSpace();
    hide IsSpace;
    FirstChar(a, t, b);
  }

  lemma FirstChar(a: string, t: string, b: string)
    requires a + t + b != ""
    ensures (a + t + b)[0] == if a != "" then a[0] else if t != "" then t[0] else b[0]
  {
    assert a == "" && t == "" ==> a + t + b == b;
  }

  lemma HashNoSpace()
    ensures !IsSpace('#')
  {
  }

  /** Where the trimmed line starts with '#' but the untrimmed one does not, a blank does. */
  lemma HashAfterBlank(body: string)
    ensures Comment(body) ==> Comment(TrimSpace(body))
    ensures TrimSpace(body) == "" ==> IndexOf(body, '=') == |body|
    ensures body == "" ==> TrimSpace(body) == ""
    ensures TrimSpace(body) != "" ==> !IsSpace(TrimSpace(body)[0])
  {
    HashNoSpace();
    hide IsSpace, TrimSpace, IndexOf;
    var a, b := TrimSpaceParts(body);
    var t := TrimSpace(body);
    if Comment(body) {
      FirstOf(a, t, b);
    }
    if TrimSpace(body) == "" {
      assert body == a + b;
      NoEqualsInBlank(a);
      NoEqualsInBlank(b);
      IndexOfNowhere(body, '=');
    }
  }

  /** A line is removed for a key if and only if the key is listed for it and does not look
      like a comment. */
  lemma RemovesIffListed(line: string, key: string)
    requires key != ""
    ensures Removes(line, key) <==> ListedKey(line) == Some(key) && key[0] != '#'
  {
    hide IsSpace, TrimSpace, TrimLeft, TrimRight, Body, IndexOf, TrimPrefix;
    var body := Body(line);
    var t := TrimSpace(body);
    HashAfterBlank(body);
    CutTrimmed(body);
    if t != "" && TrimSpace(t[..IndexOf(t, '=')]) == key {
      NameStartsLine(t, IndexOf(t, '='));
    }
  }

  lemma {:induction false} KeysOfKept(lines: seq<string>, key: string)
    requires key != ""
    ensures key[0] != '#' ==> KeysOf(Keep(lines, key)) == KeysOf(lines) - {key}
    ensures key[0] == '#' ==> KeysOf(Keep(lines, key)) == KeysOf(lines)
  {
    hide Removes, ListedKey;
    if lines != [] {
      KeysOfKept(lines[1..], key);
      RemovesIffListed(lines[0], key);
      KeysOfConcat([lines[0]], Keep(lines[1..], key));
      KeysOfConcat([lines[0]], lines[1..]);
      assert [lines[0]] + lines[1..] == lines;
      assert KeysOf([lines[0]]) == if ListedKey(lines[0]).Some? then {ListedKey(lines[0]).value} else {};
    }
  }

  lemma KeysAfterRemove(text: string, key: string)
    requires TrimSpace(key) != ""
    ensures Keys(Remove(Some(text), key)) == KeysOf(Keep(Split(TrimNewlines(text)), TrimSpace(key)))
  {
    hide Split, TrimNewlines, TrimSpace, Keep, KeysOf, Remove;
    OtherLinesKept(text, key);
    KeysOfBlank(Keep(Split(TrimNewlines(text)), TrimSpace(key)));
  }

  /** For every file and key: removing a key leaves exactly the other keys listed, if and
      only if it is not a listed key that starts with '#'. */
  lemma RemovalExactIff(file: Option<string>, key: string)
    requires TrimSpace(key) != ""
    ensures var k := TrimSpace(key);
            Keys(Remove(file, key)) == Keys(file) - {k} <==> !(k[0] == '#' && k in Keys(file))
  {
    hide Split, TrimNewlines, TrimSpace, Keep, KeysOf, Remove;
    if file.Some? {
      KeysAfterRemove(file.value, key);
      KeysWithoutNewlines(file.value);
      KeysOfKept(Split(TrimNewlines(file.value)), TrimSpace(key));
    } else {
      RemoveNothing(key);
    }
  }

  lemma RemoveNothing(key: string)
    ensures Remove(None, key) == None
  {
  }

  /** And such keys are listed: for every assignment commented out after "export" and more
      than one blank. */
  lemma CommentListedAsKey(line: string)
    requires var body := Body(line);
             IndexOf(body, '=') < |body| && IsSpace(body[0]) && Comment(TrimSpace(body))
    requires TrimSpace(Body(line)[..IndexOf(Body(line), '=')]) != ""
    ensures ListedKey(line).Some? && Comment(ListedKey(line).value)
    ensures forall key :: !Removes(line, key)
  {
    HashNoSpace();
    hide IsSpace, TrimSpace, Body, IndexOf;
    var t := TrimSpace(Body(line));
    CutTrimmed(Body(line));
    HashAfterBlank(Body(line));
    NameStartsLine(t, IndexOf(t, '='));
  }

  lemma CommentedOut(line: string, prefix: string, name: string, rest: string)
    requires prefix == "export " && line == prefix + (" " + name + rest) && TrimSpace(line) == line
    requires Comment(name) && '=' !in name && TrimSpace(name) == name && rest != "" && rest[0] == '='
    ensures ListedKey(line) == Some(name)
  {
    hide TrimSpace, TrimPrefix, IndexOf, IsSpace, Body;
    var body := " " + name + rest;
    BodyOf(line, prefix, body);
    IndexOfConcat(" " + name, rest, '=');
    IndexOfHere(rest);
    BlankIsSpace();
    TrimSpaceBlank(" ", name);
    assert body[..|name| + 1] == " " + name;
  }

  lemma BlankIsSpace()
    ensures IsSpace(' ')
  {
  }

  lemma CommentExample()
    ensures ListedKey("export  #K=1") == Some("#K")
  {
    hide *;
    ExampleParts();
    ExampleEnds();
    var line, name := "export  #K=1", "#K";
    NothingToTrim(line);
    NothingToTrim(name);
    CommentedOut(line, "export ", name, "=1");
  }

  lemma ExampleEnds()
    ensures !IsSpace('e') && !IsSpace('1') && !IsSpace('#') && !IsSpace('K')
  {
  }

  lemma ExampleParts()
    ensures "export  #K=1" == "export " + (" " + "#K" + "=1")
    ensures Comment("#K") && '=' !in "#K"
  {
  }

  lemma BodyOf(line: string, prefix: string, body: string)
    requires prefix == "export " && TrimSpace(line) == line == prefix + body
    ensures Body(line) == body
  {
    hide TrimSpace, TrimPrefix;
    PrefixTrimmed(prefix, body);
  }

  lemma PrefixTrimmed(p: string, s: string)
    ensures TrimPrefix(p + s, p) == s
  {
  }

  lemma IndexOfHere(s: string)
    requires s != "" && s[0] == '='
    ensures IndexOf(s, '=') == 0
  {
  }

  // ---- what a line says, in its own terms ----

  /** A line of white space, or one whose first other character is '#', lists nothing and is
      removed for no key. */
  lemma CommentsIgnored(line: string, blank: string, rest: string)
    requires Blank(blank) && (line == blank || line == blank + "#" + rest)
    ensures ListedKey(line) == None && forall key :: !Removes(line, key)
  {
    HashNoSpace();
    BodyOfComment(line, blank, rest);
    TrimSpaceIdempotent(line);
    hide IsSpace, TrimSpace, IndexOf;
  }

  lemma BodyOfComment(line: string, blank: string, rest: string)
    requires Blank(blank) && (line == blank || line == blank + "#" + rest)
    ensures Body(line) == TrimSpace(line) && (line == blank ==> Body(line) == "")
    ensures line != blank ==> Comment(Body(line)) && Body(line) != ""
  {
    HashNoSpace();
    hide IsSpace, TrimPrefix;
    if line == blank {
      TrimSpaceBlankIff(line);
    } else {
      assert line == blank + ("#" + rest);
      TrimSpaceBlank(blank, "#" + rest);
      var rest' := TrimKeepsStart("#", rest);
    }
    NoExport(TrimSpace(line));
  }

  lemma NoExport(s: string)
    requires s == "" || s[0] == '#'
    ensures TrimPrefix(s, "export ") == s
  {
    assert "export "[0] == 'e';
  }

  /** Trimming keeps what stands before and at the last character that is no white space. */
  lemma TrimKeepsStart(s: string, rest: string) returns (rest': string)
    requires s != "" && !IsSpace(s[0]) && !IsSpace(s[|s| - 1])
    ensures TrimSpace(s + rest) == s + rest'
  {
    hide IsSpace;
    var u := s + rest;
    assert TrimLeft(u) == u;
    TrimRightSpec(u);
    var r := TrimRight(u);
    assert u[|s| - 1] == s[|s| - 1];
    rest' := r[|s|..];
    assert r == u[..|r|];
  }

  /** An assignment, after any white space and with or without "export", lists its name and
      is removed for it. */
  lemma AssignmentListed(line: string, blank: string, prefix: string, name: string, rest: string)
    requires Blank(blank) && (prefix == "" || prefix == "export ") && line == blank + (prefix + name + "=" + rest)
    requires name != "" && '=' !in name && !IsSpace(name[0]) && !IsSpace(name[|name| - 1]) && name[0] != '#'
    requires prefix == "" ==> !("export " <= name)
    ensures ListedKey(line) == Some(name) && forall key :: Removes(line, key) <==> key == name
  {
    var rest' := BodyOfAssignment(line, blank, prefix, name, rest);
    hide IsSpace, TrimSpace, IndexOf, Body, TrimPrefix;
    var body := Body(line);
    assert body == name + ("=" + rest');
    IndexOfConcat(name, "=" + rest', '=');
    IndexOfHere("=" + rest');
    assert body[..|name|] == name;
    NothingToTrim(name);
    forall key ensures Removes(line, key) <==> key == name {
      OneName(line, key, name);
    }
  }

  lemma OneName(line: string, key: string, name: string)
    requires ListedKey(line) == Some(name) && name != "" && name[0] != '#'
    ensures Removes(line, key) <==> key == name
  {
    hide Body, TrimSpace, IndexOf, IsSpace;
    RemovesIffListed(line, name);
    if key != "" {
      RemovesIffListed(line, key);
    }
  }

  lemma BodyOfAssignment(line: string, blank: string, prefix: string, name: string, rest: string)
    returns (rest': string)
    requires Blank(blank) && (prefix == "" || prefix == "export ") && line == blank + (prefix + name + "=" + rest)
    requires name != "" && '=' !in name && !IsSpace(name[0])
    requires prefix == "" ==> !("export " <= name)
    ensures Body(line) == name + "=" + rest'
  {
    EndsOfStart(prefix, name);
    hide IsSpace, TrimSpace, TrimPrefix;
    TrimSpaceBlank(blank, prefix + name + "=" + rest);
    rest' := TrimKeepsStart(prefix + name + "=", rest);
    assert prefix + name + "=" + rest' == prefix + (name + "=" + rest');
    if prefix == "" {
      NoExportName(name, rest');
    } else {
      PrefixTrimmed(prefix, name + "=" + rest');
    }
  }

  lemma EndsOfStart(prefix: string, name: string)
    requires (prefix == "" || prefix == "export ") && name != "" && !IsSpace(name[0])
    ensures !IsSpace((prefix + name + "=")[0]) && !IsSpace((prefix + name + "=")[|prefix + name|])
  {
    assert prefix == "export " ==> (prefix + name + "=")[0] == 'e';
  }

  lemma NoExportName(name: string, rest: string)
    requires '=' !in name && !("export " <= name)
    ensures TrimPrefix(name + "=" + rest, "export ") == name + "=" + rest
  {
    var s, p := name + "=" + rest, "export ";
    assert s[..|name|] == name && s[|name|] == '=';
    assert forall i :: 0 <= i < |p| ==> p[i] != '=';
    assert |name| >= 7 ==> s[..7] == name[..7];
  }

  /** Splitting into lines loses nothing. */
  lemma {:induction false} JoinSplit(s: string)
    ensures Join(Split(s)) == s
    decreases |s|
  {
    hide IndexOf, Split;
    SplitStep(s);
    var i := IndexOf(s, '\n');
    if i < |s| {
      JoinSplit(s[i + 1..]);
      JoinCons(s[..i], Split(s[i + 1..]));
      assert s == s[..i] + "\n" + s[i + 1..];
    }
  }

  lemma JoinCons(line: string, lines: seq<string>)
    requires lines != []
    ensures Join([line] + lines) == line + "\n" + Join(lines)
  {
    assert ([line] + lines)[1..] == lines;
  }

  /** All line feeds at the end go, and nothing else. */
  lemma {:induction false} TrimNewlinesSpec(s: string)
    ensures var r := TrimNewlines(s);
            && r <= s && (r == "" || r[|r| - 1] != '\n') && forall i :: |r| <= i < |s| ==> s[i] == '\n'
  {
    if s != "" && s[|s| - 1] == '\n' {
      TrimNewlinesSpec(s[..|s| - 1]);
      assert forall i :: 0 <= i < |s| - 1 ==> s[i] == s[..|s| - 1][i];
    }
  }

  /** Each line is kept or removed by itself. */
  lemma KeepByLine(a: seq<string>, line: string, key: string)
    ensures Keep(a + [line], key) == Keep(a, key) + if Removes(line, key) then [] else [line]
    ensures Keep([], key) == []
  {
    hide Removes, Keep;
    KeepConcat(a, [line], key);
    KeepOne(line, key);
  }

  lemma KeepOne(line: string, key: string)
    ensures Keep([line], key) == if Removes(line, key) then [] else [line]
    ensures Keep([], key) == []
  {
    hide Removes;
    assert [line][1..] == [];
  }

  lemma {:induction false} KeepConcat(a: seq<string>, b: seq<string>, key: string)
    ensures Keep(a + b, key) == Keep(a, key) + Keep(b, key)
  {
    hide Removes;
    if a == [] {
      assert a + b == b;
    } else {
      KeepConcat(a[1..], b, key);
      assert (a + b)[1..] == a[1..] + b;
      ConcatAssoc([a[0]], Keep(a[1..], key), Keep(b, key));
    }
  }

  /** The keys listed are those that some line lists. */
  lemma {:induction false} ListedBySomeLine(lines: seq<string>, key: string)
    ensures key in KeysOf(lines) <==> exists line :: line in lines && ListedKey(line) == Some(key)
  {
    hide ListedKey;
    if lines != [] {
      ListedBySomeLine(lines[1..], key);
      assert forall line :: line in lines <==> line == lines[0] || line in lines[1..];
    }
  }
}
