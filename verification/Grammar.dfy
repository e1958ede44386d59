/** What the frame grammar makes of a directed frame. */
module Grammar {
  import opened Text
  import opened Reassembly

  const QUERY_COMMANDS: seq<Text> :=
    ["?", "AGN?", "INFO?", "SNR?", "GRID?", "QTH?", "STATUS?", "QUERY", "QUERY?", "MSG?", "MSGS?"]

  const KNOWN_COMMANDS: seq<Text> :=
    ["ACK", "AGN", "INFO", "SNR", "GRID", "QTH", "STATUS", "MSG", "MSG TO:", "STORE", "STORE TO:",
     "QUERY MSGS", "QUERY CALL", "HEARING", "RR", "HW CPY?", "QSL?"]

  /** The kind of a frame, by the text after the two callsigns. */
  function ClassifyDirectedBody(body: Text): FrameKind {
    var first := FirstWord(body);
    if StartsWithUpper(first, "ACK") then FrameKind.Ack
    else if StartsWithUpper(body, "MSG TO:") then DirectedCommand
    else if StartsWithUpper(body, "QUERY MSGS") || StartsWithUpper(body, "QUERY MSG ") then DirectedCommand
    else if first in QUERY_COMMANDS || (body != [] && body[|body| - 1] == '?') then DirectedQuery
    else if first == "MSG" then DirectedMessage
    else if first in KNOWN_COMMANDS then DirectedCommand
    else DirectedMessage
  }

  /** A word that names a station, not a group. */
  predicate Callsign(t: Text) {
    IsWord(t) && t[0] != '@'
  }

  lemma UpperCallsign(t: Text)
    requires Callsign(t)
    ensures Callsign(UpperText(t))
  {
  }

  /** The frame "<from>: <to> <body>". */
  function Directed(from: Text, to: Text, body: Text, freq: real): ParsedFrame {
    ParsedFrame(ClassifyDirectedBody(body), Some(from), Some(to), body, freq)
  }

  /** "MSG TO:" or the word "MSG" comes first. */
  predicate ReadsAsMail(body: Text) {
    StartsWithUpper(body, "MSG TO:") || (StartsWithUpper(body, "MSG") && WordEnds(body, 3))
  }

  lemma FirstLetter(body: Text)
    requires body != [] && !IsSpace(body[0])
    ensures FirstWord(body) != [] && FirstWord(body)[0] == Upper(body[0])
  {
    assert LStrip(body) == body;
    assert Tokens(body)[0] == body[..TokenEnd(body)];
  }

  /** The kind given to a frame never keeps its mail from reassembly: a directed
      frame starts a mail buffer if and only if its text reads as mail. */
  lemma MailIsClassified(from: Text, to: Text, body: Text, freq: real)
    requires from != [] && body != [] && !IsSpace(body[0])
    ensures var role := RoleOf(Directed(from, to, body, freq));
      role.BufferedStarter? && (role.verb.Msg? || role.verb.MsgTo?) <==> ReadsAsMail(body)
  {
    var f := Directed(from, to, body, freq);
    assert LStrip(body) == body;
    if ReadsAsMail(body) {
      PrefixLetter(body, if StartsWithUpper(body, "MSG TO:") then "MSG TO:" else "MSG");
      FirstLetter(body);
      NotAck(FirstWord(body));
    }
  }

  lemma PrefixLetter(s: Text, prefix: Text)
    requires prefix != [] && StartsWithUpper(s, prefix)
    ensures Upper(s[0]) == prefix[0]
  {
    assert UpperText(s[..|prefix|])[0] == Upper(s[0]);
  }

  lemma NotAck(word: Text)
    requires word != [] && Upper(word[0]) != 'A'
    ensures !StartsWithUpper(word, "ACK")
  {
    if StartsWithUpper(word, "ACK") { PrefixLetter(word, "ACK"); }
  }

  /** An ACK starts nothing and extends nothing. */
  lemma AckStartsNothing(from: Text, to: Text, freq: real)
    ensures RoleOf(Directed(from, to, "ACK", freq)) == Unrelated
  {
    var body: Text := "ACK";
    assert LStrip(body) == body;
    assert body[1..] == "CK" && body[1..][1..] == "K" && body[1..][1..][1..] == [];
    assert TokenEnd(body[1..][1..]) == 1;
    assert TokenEnd(body) == 3;
    assert Tokens(body)[0] == body[..3] == "ACK";
    assert FirstWord(body) == "ACK";
  }

  // ---- Verbs ----

  /** How a verb is spoken. */
  function Spoken(verb: Verb): Text
    requires !verb.Other?
  {
    match verb
    case Msg => "MSG"
    case MsgTo => "MSG TO:"
    case Query => "QUERY"
    case QueryMsgs => "QUERY MSGS"
    case QueryCall => "QUERY CALL"
    case Cmd => "CMD"
    case Relay => ">"
  }

  predicate Alike(body: Text, prefix: Text) {
    |prefix| <= |body| && forall i :: 0 <= i < |prefix| ==> Upper(body[i]) == prefix[i]
  }

  lemma StartsIsAlike(body: Text, prefix: Text)
    ensures StartsWithUpper(body, prefix) <==> Alike(body, prefix)
  {
    if |prefix| <= |body| {
      var head := UpperText(body[..|prefix|]);
      forall i | 0 <= i < |prefix| ensures head[i] == Upper(body[i]) {}
      if Alike(body, prefix) { assert head == prefix; }
    }
  }

  /** The text opens with the spoken verb, in any case, and with no longer one;
      `rest` is what follows, leading whitespace apart. */
  predicate Means(body: Text, verb: Verb, rest: Text) {
    !verb.Other? && Alike(body, Spoken(verb)) && rest == LStrip(body[|Spoken(verb)|..])
    && match verb
       case Msg => WordEnds(body, 3) && !Alike(body, "MSG TO:")
       case Query => WordEnds(body, 5) && !Alike(body, "QUERY MSGS") && !Alike(body, "QUERY CALL")
       case Cmd => WordEnds(body, 3)
       case _ => true
  }

  lemma AlikeLetter(body: Text, prefix: Text)
    requires Alike(body, prefix) && prefix != []
    ensures body != [] && Upper(body[0]) == prefix[0]
  {
  }

  lemma StartsAreAlike(body: Text)
    ensures StartsWithUpper(body, "MSG TO:") <==> Alike(body, "MSG TO:")
    ensures StartsWithUpper(body, "MSG") <==> Alike(body, "MSG")
    ensures StartsWithUpper(body, "QUERY MSGS") <==> Alike(body, "QUERY MSGS")
    ensures StartsWithUpper(body, "QUERY CALL") <==> Alike(body, "QUERY CALL")
    ensures StartsWithUpper(body, "QUERY") <==> Alike(body, "QUERY")
    ensures StartsWithUpper(body, "CMD") <==> Alike(body, "CMD")
  {
    StartsIsAlike(body, "MSG TO:");
    StartsIsAlike(body, "MSG");
    StartsIsAlike(body, "QUERY MSGS");
    StartsIsAlike(body, "QUERY CALL");
    StartsIsAlike(body, "QUERY");
    StartsIsAlike(body, "CMD");
  }

  lemma TwoQueries(body: Text)
    ensures !(Alike(body, "QUERY MSGS") && Alike(body, "QUERY CALL"))
  {
    if Alike(body, "QUERY MSGS") && Alike(body, "QUERY CALL") {
      LetterAt(body, "QUERY MSGS", 6);
      LetterAt(body, "QUERY CALL", 6);
    }
  }

  lemma LetterAt(body: Text, prefix: Text, i: nat)
    requires Alike(body, prefix) && i < |prefix|
    ensures Upper(body[i]) == prefix[i]
  {
  }

  /** The letters with which a verb can open. */
  lemma Openings(body: Text)
    ensures Alike(body, "MSG TO:") || Alike(body, "MSG") ==> body != [] && Upper(body[0]) == 'M'
    ensures Alike(body, "QUERY MSGS") || Alike(body, "QUERY CALL") || Alike(body, "QUERY") ==>
      body != [] && Upper(body[0]) == 'Q'
    ensures Alike(body, "CMD") ==> body != [] && Upper(body[0]) == 'C'
    ensures Alike(body, ">") <==> body != [] && body[0] == '>'
  {
    if Alike(body, "MSG TO:") { AlikeLetter(body, "MSG TO:"); }
    if Alike(body, "MSG") { AlikeLetter(body, "MSG"); }
    if Alike(body, "QUERY MSGS") { AlikeLetter(body, "QUERY MSGS"); }
    if Alike(body, "QUERY CALL") { AlikeLetter(body, "QUERY CALL"); }
    if Alike(body, "QUERY") { AlikeLetter(body, "QUERY"); }
    if Alike(body, "CMD") { AlikeLetter(body, "CMD"); }
    if Alike(body, ">") { AlikeLetter(body, ">"); }
  }

  /** A directed frame begins a buffered message with that verb and that text if
      and only if that is what it says. */
  lemma VerbIff(from: Text, to: Text, body: Text, freq: real, verb: Verb, rest: Text)
    requires from != [] && body != [] && !IsSpace(body[0])
    ensures RoleOf(Directed(from, to, body, freq)) == BufferedStarter(verb, rest) <==> Means(body, verb, rest)
  {
    if Upper(body[0]) == 'A' {
      AckOrNot(from, to, body, freq);
      NoVerbInA(body, verb, rest);
    } else {
      DirectedUnlessAck(body);
      ClassifiedIff(Directed(from, to, body, freq), verb, rest);
    }
  }

  lemma DirectedUnlessAck(body: Text)
    requires body != [] && !IsSpace(body[0]) && Upper(body[0]) != 'A'
    ensures ClassifyDirectedBody(body) in {DirectedMessage, DirectedCommand, DirectedQuery}
  {
    FirstLetter(body);
    NotAck(FirstWord(body));
  }

  lemma NoVerbInA(body: Text, verb: Verb, rest: Text)
    requires body != [] && Upper(body[0]) == 'A'
    ensures !Means(body, verb, rest)
  {
    Openings(body);
  }

  lemma AckOrNot(from: Text, to: Text, body: Text, freq: real)
    requires body != [] && LStrip(body) == body && Upper(body[0]) == 'A'
    ensures !RoleOf(Directed(from, to, body, freq)).BufferedStarter?
  {
    StartsAreAlike(body);
    Openings(body);
  }

  lemma ClassifiedIff(f: ParsedFrame, verb: Verb, rest: Text)
    requires f.kind.DirectedMessage? || f.kind.DirectedCommand? || f.kind.DirectedQuery?
    requires f.body != [] && LStrip(f.body) == f.body
    ensures ClassifyFirstFrame(f) == Some((verb, rest)) <==> Means(f.body, verb, rest)
  {
    StartsAreAlike(f.body);
    TwoQueries(f.body);
    Openings(f.body);
  }

  // ---- Kinds ----

  /** The first word, in upper case, whatever the rest. */
  lemma FirstWordIs(word: Text, rest: Text)
    requires IsWord(word) && (rest != [] ==> IsSpace(rest[0]))
    ensures FirstWord(word + rest) == UpperText(word)
  {
    WordFirst(word, rest);
  }

  /** It asks for mail by name: these are commands whatever follows. */
  predicate AsksForMail(body: Text) {
    Alike(body, "MSG TO:") || Alike(body, "QUERY MSGS") || Alike(body, "QUERY MSG ")
  }

  /** The kind of a directed frame, by its first word and its last character. A
      first word that only starts with ACK makes it an ACK. */
  lemma KindIff(word: Text, rest: Text)
    requires IsWord(word) && (rest != [] ==> IsSpace(rest[0]))
    ensures var body, kind := word + rest, ClassifyDirectedBody(word + rest);
      var asks := UpperText(word) in QUERY_COMMANDS || body[|body| - 1] == '?';
      var named := UpperText(word) != "MSG" && UpperText(word) in KNOWN_COMMANDS;
      && (kind.Ack? <==> Alike(word, "ACK"))
      && (kind.DirectedQuery? <==> !Alike(word, "ACK") && !AsksForMail(body) && asks)
      && (kind.DirectedCommand? <==> !Alike(word, "ACK") && (AsksForMail(body) || (!asks && named)))
      && kind in {FrameKind.Ack, DirectedMessage, DirectedQuery, DirectedCommand}
  {
    var body := word + rest;
    FirstWordIs(word, rest);
    StartsIsAlike(body, "MSG TO:");
    StartsIsAlike(body, "QUERY MSGS");
    StartsIsAlike(body, "QUERY MSG ");
    StartsIsAlike(UpperText(word), "ACK");
    UpperAlike(word);
  }

  lemma UpperAlike(word: Text)
    ensures Alike(UpperText(word), "ACK") <==> Alike(word, "ACK")
  {
    forall i | 0 <= i < |word| ensures Upper(UpperText(word)[i]) == Upper(word[i]) { UpperJoins(word[i], word[i]); }
  }

  // ---- Queries for one letter ----

  /** "MSG <id>" or "MSG ID <id>", and at most one word more. */
  predicate NamesLetter(t: seq<Text>, digits: Text) {
    && |t| >= 2 && UpperText(t[0]) == "MSG" && AllDecimal(digits)
    && ((|t| <= 3 && t[1] == digits) || (3 <= |t| <= 4 && UpperText(t[1]) == "ID" && t[2] == digits))
  }

  lemma NotId(digits: Text)
    requires AllDecimal(digits)
    ensures UpperText(digits) != "ID"
  {
    assert IsDecimal(digits[0]) && UpperText(digits)[0] == digits[0];
  }

  /** A query names a letter in exactly these forms. */
  lemma QueryIff(rest: Text, digits: Text)
    ensures QueryMsgId(rest) == Some(digits) <==> NamesLetter(Tokens(rest), digits)
  {
    var t := Tokens(rest);
    if |t| >= 2 && AllDecimal(t[1]) { NotId(t[1]); }
    if AllDecimal(digits) { NotId(digits); }
  }

  lemma IdWords(msg: Text, digits: Text, tail: Text)
    requires IsWord(msg) && IsWord(digits) && (tail != [] ==> IsSpace(tail[0]))
    ensures Tokens(msg + ([' '] + (digits + tail))) == [msg] + ([digits] + Tokens(tail))
  {
    WordFirst(digits, tail);
    WordThen(msg, digits + tail);
  }

  /** "MSG <id>" names a letter, with at most one more word. */
  lemma QueryNames(msg: Text, digits: Text, tail: Text)
    requires IsWord(msg) && UpperText(msg) == "MSG" && AllDecimal(digits) && |Tokens(tail)| <= 1
    requires tail != [] ==> IsSpace(tail[0])
    ensures QueryMsgId(msg + ([' '] + (digits + tail))) == Some(digits)
  {
    DigitsAreAWord(digits);
    IdWords(msg, digits, tail);
    QueryIff(msg + ([' '] + (digits + tail)), digits);
  }

  /** And so does "MSG ID <id>". */
  lemma QueryNamesId(msg: Text, digits: Text, tail: Text)
    requires IsWord(msg) && UpperText(msg) == "MSG" && AllDecimal(digits) && |Tokens(tail)| <= 1
    requires tail != [] ==> IsSpace(tail[0])
    ensures QueryMsgId(msg + ([' '] + ("ID" + ([' '] + (digits + tail))))) == Some(digits)
  {
    DigitsAreAWord(digits);
    var id: Text := "ID";
    TwoThenMore(msg, id, digits, tail);
    QueryIff(msg + ([' '] + (id + ([' '] + (digits + tail)))), digits);
  }

  lemma TwoThenMore(a: Text, b: Text, c: Text, tail: Text)
    requires IsWord(a) && IsWord(b) && IsWord(c) && (tail != [] ==> IsSpace(tail[0]))
    ensures Tokens(a + ([' '] + (b + ([' '] + (c + tail))))) == [a, b] + ([c] + Tokens(tail))
  {
    WordFirst(c, tail);
    TwoWords(a, b, c + tail, [c] + Tokens(tail));
  }
}
