/** The arguments with which the new database is initialized: how preupgrade writes them down from what its job has
    found in the old database, and what the shell and initdb make of them. */
module Initdb {
  import opened Base
  import opened Scripts

  const LOCALE: string := "--locale="
  const ENCODING: string := "--encoding="
  const CHECKSUMS: string := "--data-checksums"

  // The word that sets an option, unless its value is empty
  function Word(option: string, value: string): seq<string> {
    if value != "" then [option + value] else []
  }

  // parseConfigToInitdbArgs: one word for each setting that is given
  function Words(c: DbConfig): seq<string> {
    Word(LOCALE, c.locale) + Word(ENCODING, c.encoding) + if c.dataChecksums then [CHECKSUMS] else []
  }

  // strings.Join(args, " ")
  function Join(args: seq<string>): string {
    if |args| == 0 then ""
    else if |args| == 1 then args[0]
    else args[0] + [' '] + Join(args[1..])
  }

  function InitdbArgs(c: DbConfig): string {
    Join(Words(c))
  }

  // ----- reading them

  datatype Flags = Flags(locale: string, encoding: string, dataChecksums: bool)

  const NO_FLAGS: Flags := Flags("", "", false)

  // One word of initdb's command line; an empty one is none.
  function ReadWord(f: Flags, word: string): Option<Flags> {
    if word == "" then Some(f)
    else if LOCALE <= word then Some(f.(locale := word[|LOCALE|..]))
    else if ENCODING <= word then Some(f.(encoding := word[|ENCODING|..]))
    else if word == CHECKSUMS then Some(f.(dataChecksums := true))
    else None
  }

  function ReadWords(f: Flags, words: seq<string>): Option<Flags>
    decreases words
  {
    if words == [] then Some(f)
    else
      match ReadWord(f, words[0])
      case None => None
      case Some(f') => ReadWords(f', words[1..])
  }

  predicate IsBlank(c: char) {
    c == ' ' || c == '\t' || c == '\n'
  }

  predicate Solid(s: string) {
    forall c :: c in s ==> !IsBlank(c)
  }

  // The shell's field splitting; between two blanks is an empty field.
  function Fields(s: string): (fields: seq<string>)
    ensures |fields| > 0
  {
    if s == [] then [""]
    else
      var rest := Fields(s[1..]);
      if IsBlank(s[0]) then [""] + rest else [[s[0]] + rest[0]] + rest[1..]
  }

  // initdb $INITDB_ARGS: the shell splits the value, and initdb reads the words, the last of a kind counting
  function ReadArgs(args: string): Option<Flags> {
    ReadWords(NO_FLAGS, Fields(args))
  }

  lemma {:induction false} OneField(word: string)
    requires Solid(word)
    ensures Fields(word) == [word]
  {
    if word != [] {
      OneField(word[1..]);
      assert [word[0]] + word[1..] == word;
    }
  }

  lemma {:induction false} FirstField(word: string, rest: string)
    requires Solid(word)
    ensures Fields(word + [' '] + rest) == [word] + Fields(rest)
  {
    var s := word + [' '] + rest;
    if word == "" {
      assert s[1..] == rest;
    } else {
      assert s[1..] == word[1..] + [' '] + rest;
      FirstField(word[1..], rest);
      assert [word[0]] + word[1..] == word;
    }
  }

  lemma {:induction false} FieldsOfJoin(words: seq<string>)
    requires words != [] && forall k :: 0 <= k < |words| ==> Solid(words[k])
    ensures Fields(Join(words)) == words
  {
    if |words| == 1 {
      OneField(words[0]);
    } else {
      FirstField(words[0], Join(words[1..]));
      FieldsOfJoin(words[1..]);
    }
  }

  lemma {:induction false} FieldsAreSolid(s: string)
    ensures forall k :: 0 <= k < |Fields(s)| ==> Solid(Fields(s)[k])
  {
    if s != [] {
      FieldsAreSolid(s[1..]);
    }
  }

  // No setting is read with a blank in it.
  lemma {:induction false} ReadsNoBlank(f: Flags, words: seq<string>)
    requires Solid(f.locale) && Solid(f.encoding) && forall k :: 0 <= k < |words| ==> Solid(words[k])
    ensures var r := ReadWords(f, words);
            r.Some? ==> Solid(r.value.locale) && Solid(r.value.encoding)
    decreases words
  {
    if words != [] {
      var f' := ReadWord(f, words[0]);
      if f'.Some? {
        ReadsNoBlank(f'.value, words[1..]);
      }
    }
  }

  lemma LocaleIsRead(f: Flags, value: string, rest: seq<string>)
    requires f.locale == ""
    ensures ReadWords(f, Word(LOCALE, value) + rest) == ReadWords(f.(locale := value), rest)
  {
    if value == "" {
      assert Word(LOCALE, value) + rest == rest;
    } else {
      assert (Word(LOCALE, value) + rest)[1..] == rest;
      assert (LOCALE + value)[|LOCALE|..] == value;
    }
  }

  lemma EncodingIsRead(f: Flags, value: string, rest: seq<string>)
    requires f.encoding == ""
    ensures ReadWords(f, Word(ENCODING, value) + rest) == ReadWords(f.(encoding := value), rest)
  {
    if value == "" {
      assert Word(ENCODING, value) + rest == rest;
    } else {
      assert (Word(ENCODING, value) + rest)[1..] == rest;
      assert (ENCODING + value)[|ENCODING|..] == value;
      assert (ENCODING + value)[2] != LOCALE[2];
    }
  }

  lemma WordsAreRead(c: DbConfig)
    ensures ReadWords(NO_FLAGS, Words(c)) == Some(Flags(c.locale, c.encoding, c.dataChecksums))
  {
    var checksums := if c.dataChecksums then [CHECKSUMS] else [];
    LocaleIsRead(NO_FLAGS, c.locale, Word(ENCODING, c.encoding) + checksums);
    assert Words(c) == Word(LOCALE, c.locale) + (Word(ENCODING, c.encoding) + checksums);
    EncodingIsRead(NO_FLAGS.(locale := c.locale), c.encoding, checksums);
    assert CHECKSUMS[2] != LOCALE[2] && CHECKSUMS[2] != ENCODING[2];
  }

  /** The new database gets the settings of the old one exactly if no value of them has a blank in it. */
  lemma ArgsAreReadBackExactly(c: DbConfig)
    ensures ReadArgs(InitdbArgs(c)) == Some(Flags(c.locale, c.encoding, c.dataChecksums))
            <==> Solid(c.locale) && Solid(c.encoding)
  {
    if Solid(c.locale) && Solid(c.encoding) {
      WordsAreRead(c);
      if Words(c) != [] {
        FieldsOfJoin(Words(c));
      }
    } else {
      FieldsAreSolid(InitdbArgs(c));
      ReadsNoBlank(NO_FLAGS, Fields(InitdbArgs(c)));
    }
  }
}
