/** The known-hosts file: its lines, how a store of fingerprints is written to it, and how it is read. */
module KnownHosts {
  import opened Base
  import Base64

  /** A server name as it is printed. */
  type ServerName = string

  /** How the TLS library reads a server name. */
  type NameParser = string -> Option<ServerName>

  const FINGERPRINT_LEN: nat := 32

  type Fingerprint = f: seq<Byte> | |f| == FINGERPRINT_LEN witness seq(FINGERPRINT_LEN, i => 0)

  type CertStore = map<ServerName, Fingerprint>

  type Entry = (ServerName, Fingerprint)

  datatype HostsError = InvalidHostFile | InvalidName | InvalidBase64

  // ---- One line -----------------------------------------------------------

  predicate IsSpace(c: char) {
    var n := c as int;
    || 9 <= n <= 13 || n == 32 || n == 0x85 || n == 0xA0 || n == 0x1680
    || 0x2000 <= n <= 0x200A || n == 0x2028 || n == 0x2029 || n == 0x202F || n == 0x205F || n == 0x3000
  }

  function SkipSpaces(s: string): string {
    if s != "" && IsSpace(s[0]) then SkipSpaces(s[1..]) else s
  }

  function WordLength(s: string): (n: nat)
    ensures n <= |s|
  {
    if s == "" || IsSpace(s[0]) then 0 else 1 + WordLength(s[1..])
  }

  /** The first word of a text and what follows it. */
  function NextWord(s: string): Option<(string, string)> {
    var t := SkipSpaces(s);
    if t == "" then None else Some((t[..WordLength(t)], t[WordLength(t)..]))
  }

  function ParseLine(parse: NameParser, line: string): Result<Entry, HostsError> {
    match NextWord(line)
    case None => Err(InvalidHostFile)
    case Some((nameText, rest)) =>
      match parse(nameText)
      case None => Err(InvalidName)
      case Some(name) =>
        match NextWord(rest)
        case None => Err(InvalidHostFile)
        case Some((fingerprintText, _)) =>
          match Base64.Decode(fingerprintText)
          case None => Err(InvalidBase64)
          case Some(bytes) => if |bytes| == FINGERPRINT_LEN then Ok((name, bytes)) else Err(InvalidHostFile)
  }

  function PrintLine(e: Entry): string {
    e.0 + " " + Base64.Encode(e.1)
  }

  // ---- The file -----------------------------------------------------------

  function LineLength(text: string): (n: nat)
    ensures n <= |text|
    ensures n < |text| ==> text[n] == '\n'
  {
    if text == "" || text[0] == '\n' then 0 else 1 + LineLength(text[1..])
  }

  function WithoutReturn(line: string): string {
    if line != "" && line[|line| - 1] == '\r' then line[..|line| - 1] else line
  }

  /** A last line without a line end counts; its carriage return is kept. */
  function Lines(text: string): seq<string>
    decreases |text|
  {
    if text == "" then []
    else
      var n := LineLength(text);
      if n == |text| then [text] else [WithoutReturn(text[..n])] + Lines(text[n + 1..])
  }

  function LoadLines(parse: NameParser, store: CertStore, lines: seq<string>): Result<CertStore, HostsError>
    decreases |lines|
  {
    if lines == [] then Ok(store)
    else
      match ParseLine(parse, lines[0])
      case Err(e) => Err(e)
      case Ok(entry) => LoadLines(parse, store[entry.0 := entry.1], lines[1..])
  }

  function Load(parse: NameParser, text: string): Result<CertStore, HostsError> {
    LoadLines(parse, map[], Lines(text))
  }

  function Print(entries: seq<Entry>): string {
    if entries == [] then "" else PrintLine(entries[0]) + "\n" + Print(entries[1..])
  }

  /** The entries of a store, each once, in some order. */
  ghost predicate Lists(entries: seq<Entry>, store: CertStore) {
    && (forall i, j :: 0 <= i < j < |entries| ==> entries[i].0 != entries[j].0)
    && (forall e :: e in entries ==> e.0 in store && store[e.0] == e.1)
    && (forall n :: n in store ==> (n, store[n]) in entries)
  }

  // ---- What is written is read back ---------------------------------------

  predicate Visible(s: string) {
    forall i :: 0 <= i < |s| ==> !IsSpace(s[i])
  }

  /** Assumed of the TLS library's names: printed, they are single words that it reads back. */
  ghost predicate WellNamed(parse: NameParser, name: ServerName) {
    name != "" && Visible(name) && parse(name) == Some(name)
  }

  ghost predicate AllWellNamed(parse: NameParser, store: CertStore) {
    forall n :: n in store ==> WellNamed(parse, n)
  }

  lemma {:induction false} WordIsWhole(word: string, rest: string)
    requires Visible(word) && (rest == "" || IsSpace(rest[0]))
    ensures WordLength(word + rest) == |word|
  {
    if word == "" {
      assert word + rest == rest;
    } else {
      assert (word + rest)[1..] == word[1..] + rest;
      WordIsWhole(word[1..], rest);
    }
  }

  lemma ReadsWord(word: string, rest: string)
    requires word != "" && Visible(word) && (rest == "" || IsSpace(rest[0]))
    ensures NextWord(word + rest) == Some((word, rest))
  {
    WordIsWhole(word, rest);
    SplitAt(word, rest);
    assert (word + rest)[0] == word[0];
  }

  lemma EncodedIsWord(f: Fingerprint)
    ensures Base64.Encode(f) != "" && Visible(Base64.Encode(f)) && Base64.Decode(Base64.Encode(f)) == Some(f)
  {
    Base64.EncodedIsVisible(f);
    Base64.RoundTrip(Base64.Encode(f), f);
  }

  /** An entry is printed as its name, a space and its fingerprint in Base64, and read back from that. */
  lemma LineRoundTrip(parse: NameParser, e: Entry)
    requires WellNamed(parse, e.0)
    ensures PrintLine(e) == e.0 + " " + Base64.Encode(e.1)
    ensures ParseLine(parse, PrintLine(e)) == Ok(e)
  {
    var code := Base64.Encode(e.1);
    EncodedIsWord(e.1);
    ConcatAssociative(e.0, " ", code);
    ReadsWord(e.0, " " + code);
    assert code + "" == code;
    ReadsWord(code, "");
    assert (" " + code)[1..] == code;
    assert NextWord(" " + code) == NextWord(code);
  }

  lemma {:induction false} LineIsWhole(line: string, rest: string)
    requires '\n' !in line
    ensures LineLength(line + "\n" + rest) == |line|
  {
    if line == "" {
      assert (line + "\n" + rest)[0] == '\n';
    } else {
      assert (line + "\n" + rest)[1..] == line[1..] + "\n" + rest;
      LineIsWhole(line[1..], rest);
    }
  }

  /** A line reaches up to its line end and loses one carriage return; what is left at the end is a line as it is. */
  lemma LinesExactly(line: string, rest: string)
    requires '\n' !in line
    ensures Lines(line) == if line == "" then [] else [line]
    ensures Lines(line + "\n" + rest)
            == [if line != "" && line[|line| - 1] == '\r' then line[..|line| - 1] else line] + Lines(rest)
  {
    WholeLine(line);
    LineIsWhole(line, rest);
    var text := line + "\n" + rest;
    assert text[..|line|] == line && text[|line| + 1..] == rest;
  }

  lemma {:induction false} WholeLine(line: string)
    requires '\n' !in line
    ensures LineLength(line) == |line|
  {
    if line != "" {
      assert line[0] in line;
      WholeLine(line[1..]);
    }
  }

  lemma PrintedLine(e: Entry)
    requires Visible(e.0)
    ensures '\n' !in PrintLine(e) && PrintLine(e) != "" && PrintLine(e)[|PrintLine(e)| - 1] != '\r'
  {
    EncodedIsWord(e.1);
    var line, code := PrintLine(e), Base64.Encode(e.1);
    assert line[|line| - 1] == code[|code| - 1];
    forall i | 0 <= i < |line| ensures line[i] != '\n' {
      if i > |e.0| {
        assert line[i] == code[i - |e.0| - 1];
      }
    }
  }

  function Insert(store: CertStore, entries: seq<Entry>): CertStore
    decreases |entries|
  {
    if entries == [] then store else Insert(store[entries[0].0 := entries[0].1], entries[1..])
  }

  lemma {:induction false} LoadsPrinted(parse: NameParser, store: CertStore, entries: seq<Entry>)
    requires forall e :: e in entries ==> WellNamed(parse, e.0)
    ensures LoadLines(parse, store, Lines(Print(entries))) == Ok(Insert(store, entries))
    decreases |entries|
  {
    if entries != [] {
      var e := entries[0];
      PrintedLine(e);
      LineRoundTrip(parse, e);
      LinesExactly(PrintLine(e), Print(entries[1..]));
      LoadsPrinted(parse, store[e.0 := e.1], entries[1..]);
      assert ([PrintLine(e)] + Lines(Print(entries[1..])))[1..] == Lines(Print(entries[1..]));
    }
  }

  lemma {:induction false} InsertsListed(store: CertStore, entries: seq<Entry>, all: CertStore)
    requires forall e :: e in entries ==> e.0 in all && all[e.0] == e.1
    requires forall n :: n in store ==> n in all && store[n] == all[n]
    ensures forall n :: n in Insert(store, entries) ==> n in all && Insert(store, entries)[n] == all[n]
    ensures forall n :: n in store ==> n in Insert(store, entries)
    ensures forall e :: e in entries ==> e.0 in Insert(store, entries)
    decreases |entries|
  {
    if entries != [] {
      InsertsListed(store[entries[0].0 := entries[0].1], entries[1..], all);
      assert forall e :: e in entries ==> e == entries[0] || e in entries[1..];
    }
  }

  /** Whatever the order in which a store is written, loading the file gives the store back. */
  lemma FileRoundTrip(parse: NameParser, store: CertStore, entries: seq<Entry>)
    requires AllWellNamed(parse, store) && Lists(entries, store)
    ensures Load(parse, Print(entries)) == Ok(store)
  {
    LoadsPrinted(parse, map[], entries);
    InsertsListed(map[], entries, store);
    forall n | n in store ensures n in Insert(map[], entries) {
      assert (n, store[n]) in entries;
    }
    assert Insert(map[], entries) == store;
  }

  /** Each entry of a file is a line of its own, with a line end. */
  lemma {:induction false} PrintAppend(entries: seq<Entry>, e: Entry)
    ensures Print(entries + [e]) == Print(entries) + PrintLine(e) + "\n"
    ensures Print([]) == ""
    decreases |entries|
  {
    if entries == [] {
      assert entries + [e] == [e] && [e][1..] == [];
    } else {
      assert (entries + [e])[1..] == entries[1..] + [e];
      PrintAppend(entries[1..], e);
    }
  }

  // ---- What any file is read as -------------------------------------------

  predicate Blank(s: string) {
    forall i :: 0 <= i < |s| ==> IsSpace(s[i])
  }

  ghost predicate Encodes(code: string, bytes: seq<Byte>) {
    code == Base64.Encode(bytes)
  }

  /** The text is white space, then this word, then this rest, which does not go on with the word. */
  predicate StartsWith(s: string, word: string, rest: string) {
    && word != "" && Visible(word) && (rest == "" || IsSpace(rest[0]))
    && |word + rest| <= |s| && s[|s| - |word + rest|..] == word + rest && Blank(s[..|s| - |word + rest|])
  }

  lemma {:induction false} SkipsBlank(blank: string, s: string)
    requires Blank(blank) && (s == "" || !IsSpace(s[0]))
    ensures SkipSpaces(blank + s) == s
  {
    if blank == "" {
      assert blank + s == s;
    } else {
      assert IsSpace(blank[0]) && (blank + s)[0] == blank[0];
      assert (blank + s)[1..] == blank[1..] + s;
      SkipsBlank(blank[1..], s);
    }
  }

  lemma {:induction false} SkipsOnlyBlank(s: string) returns (blank: string)
    ensures s == blank + SkipSpaces(s) && Blank(blank)
    ensures SkipSpaces(s) == "" || !IsSpace(SkipSpaces(s)[0])
  {
    blank := "";
    if s != "" && IsSpace(s[0]) {
      blank := SkipsOnlyBlank(s[1..]);
      blank := [s[0]] + blank;
      assert s == [s[0]] + s[1..];
    }
  }

  lemma BlankThenWord(blank: string, word: string, rest: string)
    requires Blank(blank) && word != "" && Visible(word) && (rest == "" || IsSpace(rest[0]))
    ensures !Blank(blank + (word + rest)) && StartsWith(blank + (word + rest), word, rest)
  {
    var t := word + rest;
    SplitAt(blank, t);
    assert (blank + t)[|blank|] == t[0] == word[0];
  }

  lemma NextWordStarts(s: string)
    ensures NextWord(s).None? <==> Blank(s)
    ensures NextWord(s).Some? ==> StartsWith(s, NextWord(s).value.0, NextWord(s).value.1)
  {
    var blank := SkipsOnlyBlank(s);
    var t := SkipSpaces(s);
    if t == "" {
      assert blank + t == blank;
    } else {
      var n := WordLength(t);
      WordStops(t);
      assert t[..n] + t[n..] == t;
      BlankThenWord(blank, t[..n], t[n..]);
    }
  }

  lemma {:induction false} WordStops(s: string)
    ensures var n := WordLength(s); Visible(s[..n]) && (s[n..] == "" || IsSpace(s[n..][0]))
  {
    if s != "" && !IsSpace(s[0]) {
      WordStops(s[1..]);
      var n := WordLength(s);
      assert s[..n] == [s[0]] + s[1..][..n - 1] && s[n..] == s[1..][n - 1..];
    }
  }

  lemma StartIsNextWord(s: string, word: string, rest: string)
    requires StartsWith(s, word, rest)
    ensures NextWord(s) == Some((word, rest))
  {
    var n := |s| - |word + rest|;
    assert s == s[..n] + (word + rest);
    assert (word + rest)[0] == word[0];
    SkipsBlank(s[..n], word + rest);
    WordIsWhole(word, rest);
    SplitAt(word, rest);
  }

  /**
     What any line is read as. It starts with a word or is blank; a blank line, and one with a single word,
     is not an entry; the first word must be a name, the second the Base64 encoding of some bytes, and
     these as many as a fingerprint has; what follows does not matter. Where several things are wrong
     the name comes first.
   */
  lemma LineExactly(parse: NameParser, line: string, word: string, rest: string, code: string, tail: string, bytes: seq<Byte>)
    ensures Blank(line) || exists w, r :: StartsWith(line, w, r)
    ensures Blank(line) ==> ParseLine(parse, line) == Err(InvalidHostFile)
    ensures StartsWith(line, word, rest) && parse(word) == None ==> ParseLine(parse, line) == Err(InvalidName)
    ensures StartsWith(line, word, rest) && parse(word) != None && Blank(rest) ==> ParseLine(parse, line) == Err(InvalidHostFile)
    ensures StartsWith(line, word, rest) && parse(word) != None && StartsWith(rest, code, tail) ==>
              && (Encodes(code, bytes) ==>
                    ParseLine(parse, line) == if |bytes| == 32 then Ok((parse(word).value, bytes)) else Err(InvalidHostFile))
              && (ParseLine(parse, line) == Err(InvalidBase64) <==> forall bs :: !Encodes(code, bs))
  {
    NextWordStarts(line);
    if StartsWith(line, word, rest) {
      StartIsNextWord(line, word, rest);
      NextWordStarts(rest);
      if StartsWith(rest, code, tail) {
        StartIsNextWord(rest, code, tail);
        CodeExactly(code, bytes);
      }
    }
  }

  lemma CodeExactly(code: string, bytes: seq<Byte>)
    ensures Encodes(code, bytes) ==> Base64.Decode(code) == Some(bytes)
    ensures Base64.Decode(code) == None <==> forall bs :: !Encodes(code, bs)
  {
    Base64.RoundTrip(code, bytes);
    forall bs ensures Base64.Decode(code) == Some(bs) <==> Encodes(code, bs) {
      Base64.RoundTrip(code, bs);
    }
  }

  predicate Reads(parse: NameParser, line: string) {
    ParseLine(parse, line).Ok?
  }

  /** The line is an entry for this name. */
  predicate Names(parse: NameParser, line: string, name: ServerName) {
    match ParseLine(parse, line)
    case Ok(entry) => entry.0 == name
    case Err(_) => false
  }

  lemma {:induction false} BadLineFails(parse: NameParser, store: CertStore, lines: seq<string>, i: nat)
    requires i < |lines| && !Reads(parse, lines[i]) && forall j :: 0 <= j < i ==> Reads(parse, lines[j])
    ensures LoadLines(parse, store, lines) == Err(ParseLine(parse, lines[i]).error)
    decreases |lines|
  {
    if i > 0 {
      assert Reads(parse, lines[0]);
      var entry := ParseLine(parse, lines[0]).value;
      BadLineFails(parse, store[entry.0 := entry.1], lines[1..], i - 1);
    }
  }

  lemma {:induction false} UnnamedIsUnchanged(parse: NameParser, store: CertStore, lines: seq<string>, name: ServerName)
    requires forall j :: 0 <= j < |lines| ==> Reads(parse, lines[j]) && !Names(parse, lines[j], name)
    ensures LoadLines(parse, store, lines).Ok?
    ensures var loaded := LoadLines(parse, store, lines).value;
            (name in loaded <==> name in store) && (name in store ==> loaded[name] == store[name])
    decreases |lines|
  {
    if lines != [] {
      assert Reads(parse, lines[0]) && !Names(parse, lines[0], name);
      var entry := ParseLine(parse, lines[0]).value;
      UnnamedIsUnchanged(parse, store[entry.0 := entry.1], lines[1..], name);
    }
  }

  lemma {:induction false} LastLineWins(parse: NameParser, store: CertStore, lines: seq<string>, i: nat, name: ServerName)
    requires i < |lines| && Names(parse, lines[i], name)
    requires forall j :: 0 <= j < |lines| ==> Reads(parse, lines[j]) && (i < j ==> !Names(parse, lines[j], name))
    ensures LoadLines(parse, store, lines).Ok?
    ensures var loaded := LoadLines(parse, store, lines).value;
            name in loaded && loaded[name] == ParseLine(parse, lines[i]).value.1
    decreases |lines|
  {
    assert Reads(parse, lines[0]);
    var entry := ParseLine(parse, lines[0]).value;
    if i == 0 {
      UnnamedIsUnchanged(parse, store[entry.0 := entry.1], lines[1..], name);
    } else {
      LastLineWins(parse, store[entry.0 := entry.1], lines[1..], i - 1, name);
    }
  }

  /**
     What any file is read as: it is refused if and only if a line is, for what is wrong with the
     first such line; otherwise the names known are those that some line gives, each with the
     fingerprint of its last line.
   */
  lemma LoadExactly(parse: NameParser, text: string, i: nat)
    requires i < |Lines(text)|
    ensures var lines, r := Lines(text), Load(parse, text);
            && (r.Ok? <==> forall j :: 0 <= j < |lines| ==> Reads(parse, lines[j]))
            && (!Reads(parse, lines[i]) && (forall j :: 0 <= j < i ==> Reads(parse, lines[j])) ==>
                  r == Err(ParseLine(parse, lines[i]).error))
            && (forall name :: r.Ok? && Names(parse, lines[i], name)
                               && (forall j :: i < j < |lines| ==> !Names(parse, lines[j], name)) ==>
                  name in r.value && r.value[name] == ParseLine(parse, lines[i]).value.1)
            && (forall name :: r.Ok? && name in r.value ==> exists j :: 0 <= j < |lines| && Names(parse, lines[j], name))
  {
    var lines, r := Lines(text), Load(parse, text);
    if k :| 0 <= k < |lines| && !Reads(parse, lines[k]) {
      var first := FirstUnread(parse, lines, k);
      BadLineFails(parse, map[], lines, first);
      if !Reads(parse, lines[i]) && forall j :: 0 <= j < i ==> Reads(parse, lines[j]) {
        BadLineFails(parse, map[], lines, i);
      }
    } else {
      AllLinesRead(parse, map[], lines);
      forall name | Names(parse, lines[i], name) && forall j :: i < j < |lines| ==> !Names(parse, lines[j], name)
        ensures name in r.value && r.value[name] == ParseLine(parse, lines[i]).value.1
      {
        LastLineWins(parse, map[], lines, i, name);
      }
      forall name | name in r.value ensures exists j :: 0 <= j < |lines| && Names(parse, lines[j], name) {
        if forall j :: 0 <= j < |lines| ==> !Names(parse, lines[j], name) {
          UnnamedIsUnchanged(parse, map[], lines, name);
        }
      }
    }
  }

  lemma FirstUnread(parse: NameParser, lines: seq<string>, k: nat) returns (i: nat)
    requires k < |lines| && !Reads(parse, lines[k])
    ensures i <= k && !Reads(parse, lines[i]) && forall j :: 0 <= j < i ==> Reads(parse, lines[j])
  {
    i := 0;
    while Reads(parse, lines[i])
      invariant i <= k && forall j :: 0 <= j < i ==> Reads(parse, lines[j])
      decreases k - i
    {
      i := i + 1;
    }
  }

  lemma {:induction false} AllLinesRead(parse: NameParser, store: CertStore, lines: seq<string>)
    requires forall j :: 0 <= j < |lines| ==> Reads(parse, lines[j])
    ensures LoadLines(parse, store, lines).Ok?
    decreases |lines|
  {
    if lines != [] {
      assert Reads(parse, lines[0]);
      var entry := ParseLine(parse, lines[0]).value;
      AllLinesRead(parse, store[entry.0 := entry.1], lines[1..]);
    }
  }

  /** A hosts file; it need not exist. */
  class HostsFile {
    var content: Option<string>

    constructor ()
      ensures content == None
    {
      content := None;
    }

    /** `writable`: the directories and the file can be created. */
    method StoreKnownHosts(store: CertStore, writable: bool) returns (ok: bool, ghost entries: seq<Entry>)
      modifies this
      ensures ok == writable
      ensures ok ==> Lists(entries, store) && content == Some(Print(entries))
      ensures !ok ==> content == old(content)
    {
      entries := [];
      if !writable {
        return false, [];
      }
      var text := "";
      var remaining := store.Keys;
      while remaining != {}
        invariant remaining <= store.Keys && text == Print(entries)
        invariant forall e :: e in entries ==> e.0 in store && store[e.0] == e.1 && e.0 !in remaining
        invariant forall i, j :: 0 <= i < j < |entries| ==> entries[i].0 != entries[j].0
        invariant forall n :: n in store && n !in remaining ==> (n, store[n]) in entries
      {
        var name :| name in remaining;
        remaining := remaining - {name};
        PrintAppend(entries, (name, store[name]));
        text := text + PrintLine((name, store[name])) + "\n";
        entries := entries + [(name, store[name])];
      }
      content := Some(text);
      return true, entries;
    }

    /** The first line that cannot be read fails the whole file; a missing file holds nothing. */
    method LoadKnownHosts(parse: NameParser) returns (r: Result<CertStore, HostsError>)
      ensures r == LoadFile(parse, content)
      ensures match content case None => r == Ok(map[]) case Some(text) => r == Load(parse, text)
    {
      if content.None? {
        return Ok(map[]);
      }
      var store: CertStore := map[];
      var lines := Lines(content.value);
      var i := 0;
      while i < |lines|
        invariant 0 <= i <= |lines|
        invariant LoadLines(parse, map[], lines) == LoadLines(parse, store, lines[i..])
      {
        var entry := ParseLine(parse, lines[i]);
        if entry.Err? {
          return Err(entry.error);
        }
        store := store[entry.value.0 := entry.value.1];
        assert lines[i..][1..] == lines[i + 1..];
        i := i + 1;
      }
      return Ok(store);
    }
  }

  function LoadFile(parse: NameParser, content: Option<string>): Result<CertStore, HostsError> {
    if content.None? then Ok(map[]) else Load(parse, content.value)
  }
}
