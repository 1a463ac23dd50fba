/**
 * Reading one setting from the reporting tool's configuration file: lines
 * of the form `key = value`, with blank lines and `#` comments skipped.
 */
module Config {
  import opened Wrappers
  import opened Text

  /**
   * The key and value a line declares: None for a blank line, a comment
   * or a line without '='. Both sides are trimmed, and only the first '='
   * separates them.
   */
  function Entry(line: string): (e: Option<(string, string)>)
    ensures var t := TrimSpace(line);
      e.None? <==> t == [] || t[0] == '#' || '=' !in t
    ensures e.Some? ==> Trimmed(e.value.0) && Trimmed(e.value.1) && '=' !in e.value.0
  {
    var t := TrimSpace(line);
    if HasPrefix(t, "#") || t == [] then None
    else
      var eq := IndexOf(t, '=');
      if eq < 0 then None
      else
        TrimSpaceSpec(t[..eq]);
        TrimSpaceSpec(t[eq + 1..]);
        TrimSpaceOmits(t[..eq], '=');
        Some((TrimSpace(t[..eq]), TrimSpace(t[eq + 1..])))
  }

  /** The line declares `key`. */
  predicate Declares(line: string, key: string) {
    Entry(line).Some? && Entry(line).value.0 == key
  }

  /** No line of `lines` declares `key`. */
  predicate Undeclared(lines: seq<string>, key: string) {
    forall j :: 0 <= j < |lines| ==> !Declares(lines[j], key)
  }

  /** The value of `key` in `lines`: the first declaration wins; "" when none declares it. */
  function ConfigValue(lines: seq<string>, key: string): (value: string)
    ensures Trimmed(value)
  {
    if lines == [] then ""
    else if Declares(lines[0], key) then Entry(lines[0]).value.1
    else ConfigValue(lines[1..], key)
  }

  /**
   * The value of `key` in the configuration file's contents; None stands
   * for a file that cannot be found or read, which reads as "".
   */
  function Setting(content: Option<string>, key: string): string {
    if content.None? then "" else ConfigValue(Split(content.value, '\n'), key)
  }

  /** getConfigValue over the file's contents: a scan of its lines for the first declaration. */
  method GetConfigValue(content: Option<string>, key: string) returns (value: string)
    ensures content.None? ==> value == ""
    ensures content.Some? ==> value == ConfigValue(Split(content.value, '\n'), key)
    ensures value == Setting(content, key)
  {
    if content.None? {
      return "";
    }
    var lines := Split(content.value, '\n');
    for i := 0 to |lines|
      invariant ConfigValue(lines, key) == ConfigValue(lines[i..], key)
    {
      ConfigValueStep(lines, key, i);
      var line := TrimSpace(lines[i]);
      if HasPrefix(line, "#") || line == "" {
        assert !Declares(lines[i], key);
        continue;
      }
      var eq := IndexOf(line, '=');
      if eq >= 0 && TrimSpace(line[..eq]) == key {
        assert Declares(lines[i], key);
        return TrimSpace(line[eq + 1..]);
      }
      assert !Declares(lines[i], key);
    }
    return "";
  }

  /** The value from line `i` on is line `i`'s value when it declares the key, else the value from line `i + 1` on. */
  lemma ConfigValueStep(lines: seq<string>, key: string, i: nat)
    requires i < |lines|
    ensures ConfigValue(lines[i..], key) ==
      if Declares(lines[i], key) then Entry(lines[i]).value.1 else ConfigValue(lines[i + 1..], key)
  {
    assert lines[i..][1..] == lines[i + 1..];
  }

  /**
   * The value comes from the first line that declares the key, whatever
   * follows; with no such line the value is "".
   */
  lemma {:induction false} FirstDeclarationWins(lines: seq<string>, key: string, i: nat)
    requires i < |lines| && Declares(lines[i], key)
    requires forall j :: 0 <= j < i ==> !Declares(lines[j], key)
    ensures ConfigValue(lines, key) == Entry(lines[i]).value.1
  {
    if i > 0 {
      assert !Declares(lines[0], key);
      FirstDeclarationWins(lines[1..], key, i - 1);
    }
  }

  lemma {:induction false} UndeclaredIsEmpty(lines: seq<string>, key: string)
    requires Undeclared(lines, key)
    ensures ConfigValue(lines, key) == ""
  {
    if lines != [] {
      UndeclaredIsEmpty(lines[1..], key);
    }
  }

  /** Blank lines and comments declare nothing. */
  lemma SkippedLines(line: string, key: string)
    requires TrimSpace(line) == [] || TrimSpace(line)[0] == '#'
    ensures !Declares(line, key)
  {
  }

  /** Neither empty nor starting or ending with white space. */
  predicate Trimmed(s: string) {
    s == [] || (!IsSpace(s[0]) && !IsSpace(s[|s| - 1]))
  }

  /**
   * A line `key=value`, with a trimmed key that holds no '=' and does not
   * start a comment and a trimmed value, declares that key with that value.
   */
  lemma DeclarationReadBack(key: string, value: string)
    requires key != [] && key[0] != '#' && '=' !in key && Trimmed(key)
    requires Trimmed(value)
    ensures Entry(key + "=" + value) == Some((key, value))
  {
    var line := key + "=" + value;
    assert line[0] == key[0];
    assert line[|line| - 1] == if value == [] then '=' else value[|value| - 1];
    TrimSpaceTrimmed(line);
    assert line[..|key|] == key && line[|key|] == '=';
    assert IndexOf(line, '=') == |key|;
    assert line[|key| + 1..] == value;
    TrimSpaceTrimmed(key);
    TrimSpaceTrimmed(value);
  }

  /**
   * A line that trims to `k=v`, with no '=' in `k` and `k` not starting a
   * comment, declares the trimmed `k` with the trimmed `v`: blanks around
   * the '=' and at either end do not matter, and only the first '=' splits.
   */
  lemma DeclarationOfLine(line: string, k: string, v: string)
    requires TrimSpace(line) == k + "=" + v
    requires '=' !in k && (k == [] || k[0] != '#')
    ensures Entry(line) == Some((TrimSpace(k), TrimSpace(v)))
  {
    var t := TrimSpace(line);
    assert t[|k|] == '=' && t[..|k|] == k;
    assert IndexOf(t, '=') == |k|;
    assert t[|k| + 1..] == v;
    if k == [] {
      assert t[0] == '=';
    } else {
      assert t[0] == k[0];
    }
  }

  /** A declaring line after lines that do not declare the key is the one that counts. */
  lemma DeclarationAfter(before: seq<string>, line: string, key: string)
    requires Undeclared(before, key)
    requires Declares(line, key)
    ensures ConfigValue(before + [line], key) == Entry(line).value.1
  {
    var lines := before + [line];
    forall j | 0 <= j < |before| ensures !Declares(lines[j], key) {
      assert lines[j] == before[j];
    }
    FirstDeclarationWins(lines, key, |before|);
  }

  /** A line built from a key and a value without line breaks has none. */
  lemma NoNewline(key: string, value: string)
    requires '\n' !in key && '\n' !in value
    ensures '\n' !in key + "=" + value
  {
    var line := key + "=" + value;
    forall k | 0 <= k < |line| ensures line[k] != '\n' {
      if k < |key| {
        assert line[k] == key[k];
      } else if k > |key| {
        assert line[k] == value[k - |key| - 1];
      }
    }
  }

  /** Appending "\n" and a line without line breaks adds exactly that line. */
  lemma AppendedLine(content: string, key: string, value: string)
    requires '\n' !in key && '\n' !in value
    ensures Split(content + "\n" + key + "=" + value, '\n') == Split(content, '\n') + [key + "=" + value]
  {
    var line := key + "=" + value;
    NoNewline(key, value);
    SplitAppend(content, line, '\n');
    assert content + "\n" + key + "=" + value == content + ['\n'] + line;
  }

  /**
   * A declaration appended to a file that does not yet declare the key is
   * the one read back.
   */
  lemma AppendedDeclaration(content: string, key: string, value: string)
    requires key != [] && key[0] != '#' && '=' !in key && '\n' !in key && Trimmed(key)
    requires Trimmed(value) && '\n' !in value
    requires Undeclared(Split(content, '\n'), key)
    ensures ConfigValue(Split(content + "\n" + key + "=" + value, '\n'), key) == value
  {
    AppendedLine(content, key, value);
    DeclarationReadBack(key, value);
    DeclarationAfter(Split(content, '\n'), key + "=" + value, key);
  }
}
