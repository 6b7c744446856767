/** Subjects of the message bus: `main` builds one per configured project, and the handler of
    every incoming message recovers the project from the subject it arrived on. */
module Routing {
  import opened Wrappers
  import opened GoStrings

  const TEMPLATE := "cexdex.hedge.signal.{{Chain}}.{{ProjectId}}"
  const CHAIN := "{{Chain}}"
  const PROJECT := "{{ProjectId}}"

  function ChainOf(key: string): string {
    Split(key, '_')[0]
  }

  /** The subject to which the project `key` subscribes. */
  function SubjectOf(key: string): string {
    Replace(Replace(TEMPLATE, CHAIN, ChainOf(key), -1), PROJECT, key, -1)
  }

  /** The key that the handler reads off a subject; `None` where its index panics. */
  function KeyOf(subject: string): Option<string> {
    var fields := Split(subject, '.');
    if |fields| > 4 then Some(fields[4]) else None
  }

  /** A template of five fields joined by dots, filled field by field. */
  lemma FillFields(a: string, b: string, c: string, d: string, e: string, from: string, to: string)
    requires from != "" && '.' !in from
    requires from[0] !in a && from[0] !in b && from[0] !in c
    ensures Replace(Join([a, b, c, d, e], '.'), from, to, -1)
         == Join([a, b, c, Replace(d, from, to, -1), Replace(e, from, to, -1)], '.')
  {
    var e' := Replace(e, from, to, -1);
    JoinFive(a, b, c, d, e);
    JoinFive(a, b, c, Replace(d, from, to, -1), e');
    ReplaceAround(a, '.', b + "." + (c + "." + (d + "." + e)), from, to);
    ReplaceAround(b, '.', c + "." + (d + "." + e), from, to);
    ReplaceAround(c, '.', d + "." + e, from, to);
    ReplaceAround(d, '.', e, from, to);
    ReplaceNothing(a, from, to, -1);
    ReplaceNothing(b, from, to, -1);
    ReplaceNothing(c, from, to, -1);
  }

  lemma JoinFive(a: string, b: string, c: string, d: string, e: string)
    ensures Join([a, b, c, d, e], '.') == a + "." + (b + "." + (c + "." + (d + "." + e)))
  {
    JoinCons(d, [e], '.');
    JoinCons(c, [d, e], '.');
    JoinCons(b, [c, d, e], '.');
    JoinCons(a, [b, c, d, e], '.');
    assert [d] + [e] == [d, e] && [c] + [d, e] == [c, d, e];
    assert [b] + [c, d, e] == [b, c, d, e] && [a] + [b, c, d, e] == [a, b, c, d, e];
  }

  /** The pattern is the whole string. */
  lemma ReplaceWhole(from: string, to: string)
    requires from != ""
    ensures Replace(from, from, to, -1) == to
  {
  }

  /** Two marks that agree in their first two characters only. */
  lemma OtherMark(s: string, from: string, to: string)
    requires |s| > 2 && |from| > 2 && s[2] != from[2] && s[2] != from[1] && from[0] !in s[2..]
    ensures Replace(s, from, to, -1) == s
  {
    var t := s[1..];
    assert t[1..] == s[2..] && t[1] == s[2];
    ReplaceStep(s, from, to);
    ReplaceStep(t, from, to);
    ReplaceNothing(t[1..], from, to, -1);
    assert [t[0]] + t[1..] == t && [s[0]] + t == s;
  }

  /** Filling both marks of a template, one after the other. */
  lemma FillTemplate(template: string, a: string, b: string, c: string,
                     chainMark: string, keyMark: string, chain: string, key: string)
    requires template == Join([a, b, c, chainMark, keyMark], '.')
    requires chainMark != "" && keyMark != "" && '.' !in chainMark && '.' !in keyMark
    requires chainMark[0] !in a && chainMark[0] !in b && chainMark[0] !in c
    requires keyMark[0] !in a && keyMark[0] !in b && keyMark[0] !in c
    requires Replace(keyMark, chainMark, chain, -1) == keyMark
    ensures Replace(Replace(template, chainMark, chain, -1), keyMark, key, -1)
         == Join([a, b, c, Replace(chain, keyMark, key, -1), key], '.')
  {
    FillFields(a, b, c, chainMark, keyMark, chainMark, chain);
    ReplaceWhole(chainMark, chain);
    FillFields(a, b, c, chain, keyMark, keyMark, key);
    ReplaceWhole(keyMark, key);
  }

  lemma TemplateFields()
    ensures TEMPLATE == Join(["cexdex", "hedge", "signal", CHAIN, PROJECT], '.')
  {
    JoinFive("cexdex", "hedge", "signal", CHAIN, PROJECT);
  }

  lemma ProjectHasNoChain(to: string)
    ensures Replace(PROJECT, CHAIN, to, -1) == PROJECT
  {
    OtherMark(PROJECT, CHAIN, to);
  }

  /** What a subject consists of, for every key: braces in a key do no harm. */
  lemma SubjectFields(key: string)
    ensures SubjectOf(key) == Join(["cexdex", "hedge", "signal", Replace(ChainOf(key), PROJECT, key, -1), key], '.')
  {
    var template, a, b, c, chainMark, keyMark := TEMPLATE, "cexdex", "hedge", "signal", CHAIN, PROJECT;
    var chain := ChainOf(key);
    assert template == Join([a, b, c, chainMark, keyMark], '.') by {
      TemplateFields();
    }
    assert Replace(keyMark, chainMark, chain, -1) == keyMark by {
      ProjectHasNoChain(chain);
    }
    FillTemplate(template, a, b, c, chainMark, keyMark, chain, key);
  }

  /** The fourth field is the chain: what stands before the first underscore of the key. */
  lemma SubjectOfChain(chain: string, rest: string)
    requires '_' !in chain && '{' !in chain
    ensures var key := chain + "_" + rest;
            SubjectOf(key) == Join(["cexdex", "hedge", "signal", chain, key], '.')
  {
    var key := chain + "_" + rest;
    SplitHead(chain, rest, '_');
    assert chain + ['_'] + rest == key;
    SubjectFields(key);
    ReplaceNothing(chain, PROJECT, key, -1);
  }

  lemma KeyOfFields(a: string, b: string, c: string, d: string, key: string)
    requires Free([a, b, c, d, key], '.')
    ensures KeyOf(Join([a, b, c, d, key], '.')) == Some(key)
  {
    JoinSplit([a, b, c, d, key], '.');
  }

  lemma KeyWithoutDot(key: string)
    requires '.' !in key
    ensures KeyOf(SubjectOf(key)) == Some(key)
  {
    SubjectFields(key);
    PieceChars(key, '_', '.');
    ReplaceChars(ChainOf(key), PROJECT, key, -1, '.');
    KeyOfFields("cexdex", "hedge", "signal", Replace(ChainOf(key), PROJECT, key, -1), key);
  }

  /** The key survives the round trip exactly when it contains no dot. */
  lemma SubjectRoundTrip(key: string)
    ensures KeyOf(SubjectOf(key)) == Some(key) <==> '.' !in key
  {
    if '.' !in key {
      KeyWithoutDot(key);
    } else {
      SplitJoin(SubjectOf(key), '.');
    }
  }

  /** For instance, nothing published for a key `a.b` is ever recognised. */
  lemma DottedKey()
    ensures KeyOf(SubjectOf("a.b")) != Some("a.b")
  {
    SubjectRoundTrip("a.b");
  }

  /** A character that is not in the string is not in its first piece. */
  lemma {:induction false} PieceChars(s: string, sep: char, c: char)
    requires c !in s
    ensures c !in Split(s, sep)[0]
  {
    if s != "" {
      PieceChars(s[1..], sep, c);
    }
  }

  /** Distinct keys without dots have distinct subjects. */
  lemma SubjectsAreDistinct(k: string, l: string)
    requires '.' !in k && '.' !in l && SubjectOf(k) == SubjectOf(l)
    ensures k == l
  {
    SubjectRoundTrip(k);
    SubjectRoundTrip(l);
  }

  // -------------------------------------------------------------------- dispatch

  type Data = string

  /** The messages that have gone into each project's channel. */
  type Channels = map<string, seq<Data>>

  /** What handling one message does: a message with an unknown key is dropped, one whose
      subject is too short panics. */
  function Dispatch(chans: Channels, subject: string, data: Data): Option<Channels> {
    match KeyOf(subject)
    case None => None
    case Some(key) => Some(if key in chans then chans[key := chans[key] + [data]] else chans)
  }

  /** A message published for the configured project `key` reaches that project's channel, and
      no other, exactly when the key has no dot; otherwise its own channel never sees it. */
  lemma DispatchReachesItsProject(chans: Channels, key: string, data: Data)
    requires key in chans
    ensures '.' !in key ==> Dispatch(chans, SubjectOf(key), data) == Some(chans[key := chans[key] + [data]])
    ensures '.' in key ==>
              var r := Dispatch(chans, SubjectOf(key), data);
              r.Some? ==> key in r.value && r.value[key] == chans[key]
  {
    SubjectRoundTrip(key);
  }

  datatype Message = Message(key: string, data: Data)

  /** The data of the messages for `key`, in order. */
  function DataFor(msgs: seq<Message>, key: string): seq<Data> {
    if msgs == [] then []
    else
      var last := msgs[|msgs|-1];
      DataFor(msgs[..|msgs|-1], key) + (if last.key == key then [last.data] else [])
  }

  /** Handling a sequence of messages, each published under `subjectOf` its key. */
  function DispatchAll(chans: Channels, msgs: seq<Message>, subjectOf: string -> string): Option<Channels> {
    if msgs == [] then Some(chans)
    else
      match DispatchAll(chans, msgs[..|msgs|-1], subjectOf)
      case None => None
      case Some(c) => var last := msgs[|msgs|-1]; Dispatch(c, subjectOf(last.key), last.data)
  }

  lemma {:induction false} DispatchAllInOrder(chans: Channels, msgs: seq<Message>, subjectOf: string -> string)
    requires forall k <- chans :: KeyOf(subjectOf(k)) == Some(k)
    requires forall i :: 0 <= i < |msgs| ==> msgs[i].key in chans
    ensures var r := DispatchAll(chans, msgs, subjectOf);
            && r.Some? && r.value.Keys == chans.Keys
            && forall k <- chans :: r.value[k] == chans[k] + DataFor(msgs, k)
  {
    if msgs != [] {
      var init, last := msgs[..|msgs|-1], msgs[|msgs|-1];
      DispatchAllInOrder(chans, init, subjectOf);
      var c := DispatchAll(chans, init, subjectOf).value;
      assert Dispatch(c, subjectOf(last.key), last.data) == Some(c[last.key := c[last.key] + [last.data]]);
      assert chans[last.key] + DataFor(init, last.key) + [last.data] == chans[last.key] + DataFor(msgs, last.key);
    }
  }

  /** Of any sequence of messages for configured projects, every channel gets exactly the
      messages of its own project, in the order in which they arrived. */
  lemma EveryProjectGetsItsOwn(chans: Channels, msgs: seq<Message>)
    requires forall k <- chans :: '.' !in k
    requires forall i :: 0 <= i < |msgs| ==> msgs[i].key in chans
    ensures var r := DispatchAll(chans, msgs, SubjectOf);
            && r.Some? && r.value.Keys == chans.Keys
            && forall k <- chans :: r.value[k] == chans[k] + DataFor(msgs, k)
  {
    forall k | k in chans
      ensures KeyOf(SubjectOf(k)) == Some(k)
    {
      SubjectRoundTrip(k);
    }
    DispatchAllInOrder(chans, msgs, SubjectOf);
  }

  /** The receiving side: the global map of channels. */
  class Receiver {
    var chans: Channels

    /** One empty channel per configured project. */
    constructor Init(projects: seq<string>)
      ensures chans == map k <- projects :: []
    {
      var filled: Channels := map[];
      for i := 0 to |projects|
        invariant filled == map k <- projects[..i] :: []
      {
        filled := filled[projects[i] := []];
      }
      assert projects[..|projects|] == projects;
      chans := filled;
    }

    method SignalMsgHandler(subject: string, data: Data) returns (panicked: bool)
      modifies this
      ensures panicked <==> Dispatch(old(chans), subject, data).None?
      ensures panicked <==> |Split(subject, '.')| < 5
      ensures !panicked ==>
                var key := Split(subject, '.')[4];
                chans == if key in old(chans) then old(chans)[key := old(chans)[key] + [data]] else old(chans)
      ensures chans == if panicked then old(chans) else Dispatch(old(chans), subject, data).value
    {
      var fields := Split(subject, '.');
      if |fields| <= 4 {
        return true;
      }
      var key := fields[4];
      if key in chans {
        chans := chans[key := chans[key] + [data]];
      }
      return false;
    }
  }
}
