/** The broker's topics by name, the index of its wildcard topics, and the look-ups that publishing and
    consuming make in them. */
module Registry {
  import opened Messages
  import opened Queueing
  import opened TopicObject

  /** Whether the pattern made of a wildcard name compiles, and what it matches; any pattern language will do. */
  datatype Patterns = Patterns(compiles: string -> bool, matches: (string, string) -> bool)

  predicate IsWildcard(name: string) { '*' in name }

  class Broker {
    const patterns: Patterns
    const maxTopics: nat
    const defaultPolicy: Policy
    var topics: map<string, Topic>
    var wildcards: map<string, Topic>
    var compiledRegex: set<string>

    /** The index holds exactly the wildcard topics, the same objects, and a pattern for each that compiles. */
    ghost predicate Valid()
      reads this
    {
      && wildcards.Keys == (set n | n in topics && IsWildcard(n))
      && (forall n | n in wildcards :: wildcards[n] == topics[n])
      && compiledRegex == (set n | n in topics && IsWildcard(n) && patterns.compiles(n))
    }

    constructor (patterns: Patterns, maxTopics: nat, defaultPolicy: Policy)
      ensures Valid() && topics == map[]
      ensures this.patterns == patterns && this.maxTopics == maxTopics && this.defaultPolicy == defaultPolicy
    {
      this.patterns, this.maxTopics, this.defaultPolicy := patterns, maxTopics, defaultPolicy;
      topics, wildcards, compiledRegex := map[], map[], {};
    }

    method CompileWildcardRegex(name: string)
      modifies this`compiledRegex
      ensures compiledRegex == old(compiledRegex) + if patterns.compiles(name) then {name} else {}
    {
      if name !in compiledRegex {
        if patterns.compiles(name) {
          compiledRegex := compiledRegex + {name};
        }
      }
    }

    /** Shared end of all the ways to register a topic object under a name. */
    method Register(name: string, t: Topic)
      requires Valid()
      modifies this`topics, this`wildcards, this`compiledRegex
      ensures Valid() && topics == old(topics)[name := t]
    {
      topics := topics[name := t];
      if IsWildcard(name) {
        wildcards := wildcards[name := t];
        CompileWildcardRegex(name);
      }
    }

    method GetOrCreateTopic(name: string) returns (t: Topic?)
      requires Valid()
      modifies this`topics, this`wildcards, this`compiledRegex
      ensures Valid()
      ensures name in old(topics) ==> t == old(topics)[name] && topics == old(topics)
      ensures name !in old(topics) && |old(topics)| >= maxTopics ==> t == null && topics == old(topics)
      ensures name !in old(topics) && |old(topics)| < maxTopics ==>
                t != null && fresh(t) && t.StartsWith(defaultPolicy, []) && topics == old(topics)[name := t]
    {
      if name in topics { return topics[name]; }
      if |topics| >= maxTopics { return null; }
      var topic := new Topic(defaultPolicy);
      Register(name, topic);
      return topic;
    }

    method CreateTopic(name: string, policy: Policy) returns (ok: bool)
      requires Valid()
      modifies this`topics, this`wildcards, this`compiledRegex
      ensures Valid() && ok == (|old(topics)| < maxTopics && name !in old(topics))
      ensures !ok ==> topics == old(topics)
      ensures ok ==> name in topics && fresh(topics[name]) && topics[name].StartsWith(policy, [])
      ensures ok ==> topics == old(topics)[name := topics[name]]
    {
      if |topics| >= maxTopics { return false; }
      if name in topics { return false; }
      var topic := new Topic(policy);
      Register(name, topic);
      return true;
    }

    /** The object is marked, so that a publish that already holds it gives up; its queues are not touched. */
    method DeleteTopic(name: string) returns (ok: bool)
      requires Valid()
      modifies this`topics, this`wildcards, this`compiledRegex, if name in topics then {topics[name]} else {}
      ensures Valid() && ok == (name in old(topics)) && topics == old(topics) - {name}
      ensures ok ==> old(topics)[name].deleted && old(topics)[name].State() == old(topics[name].State())
    {
      if name !in topics { return false; }
      topics[name].deleted := true;
      topics := topics - {name};
      wildcards := wildcards - {name};
      compiledRegex := compiledRegex - {name};
      return true;
    }

    /** Of the first `end` entries, `i` is the last one under its name that could be loaded. */
    static predicate LastLoaded(names: seq<string>, loads: seq<Option<seq<Message>>>, end: nat, n: string, i: nat)
      requires |loads| == |names| && end <= |names|
    {
      && i < end && names[i] == n && loads[i].Some?
      && forall k | i < k < end && names[k] == n :: loads[k].None?
    }

    static ghost predicate IsLoaded(names: seq<string>, loads: seq<Option<seq<Message>>>, end: nat, n: string)
      requires |loads| == |names| && end <= |names|
    {
      exists i: nat :: LastLoaded(names, loads, end, n, i)
    }

    /** Recovery replaces whatever was registered under the names it can load, and skips the others. */
    method LoadExistingTopics(names: seq<string>, loads: seq<Option<seq<Message>>>)
      requires Valid() && |loads| == |names|
      modifies this`topics, this`wildcards, this`compiledRegex
      ensures Valid()
      ensures forall n, i: nat | LastLoaded(names, loads, |names|, n, i) ::
                n in topics && fresh(topics[n]) && topics[n].StartsWith(defaultPolicy, loads[i].value)
      ensures forall n | !IsLoaded(names, loads, |names|, n) ::
                (n in topics <==> n in old(topics)) && (n in topics ==> topics[n] == old(topics)[n])
    {
      for i := 0 to |names|
        invariant Valid()
        invariant forall n, k: nat | LastLoaded(names, loads, i, n, k) ::
                    n in topics && fresh(topics[n]) && topics[n].StartsWith(defaultPolicy, loads[k].value)
        invariant forall n | !IsLoaded(names, loads, i, n) ::
                    (n in topics <==> n in old(topics)) && (n in topics ==> topics[n] == old(topics)[n])
      {
        LastLoadedStep(names, loads, i, i + 1);
        if loads[i].Some? {
          var t := new Topic(defaultPolicy);
          t.messages := loads[i].value;
          Register(names[i], t);
        }
      }
    }

    static lemma LastLoadedOne(names: seq<string>, loads: seq<Option<seq<Message>>>, end: nat, n: string, k: nat)
      requires |loads| == |names| && end < |names|
      ensures LastLoaded(names, loads, end + 1, n, k) <==>
              if n == names[end] && loads[end].Some? then k == end else LastLoaded(names, loads, end, n, k)
    {
      if n == names[end] && loads[end].Some? && k < end {
        assert names[end] == n && loads[end].Some?;
      }
    }

    static lemma LastLoadedStep(names: seq<string>, loads: seq<Option<seq<Message>>>, end: nat, next: nat)
      requires |loads| == |names| && end < |names| && next == end + 1
      ensures forall n: string, k: nat | LastLoaded(names, loads, next, n, k) ::
                if n == names[end] && loads[end].Some? then k == end else LastLoaded(names, loads, end, n, k)
      ensures forall n: string :: IsLoaded(names, loads, next, n) <==>
                (n == names[end] && loads[end].Some?) || IsLoaded(names, loads, end, n)
    {
      forall n: string, k: nat | LastLoaded(names, loads, next, n, k)
        ensures if n == names[end] && loads[end].Some? then k == end else LastLoaded(names, loads, end, n, k)
      {
        LastLoadedOne(names, loads, end, n, k);
      }
      forall n: string
        ensures IsLoaded(names, loads, next, n) <==>
                (n == names[end] && loads[end].Some?) || IsLoaded(names, loads, end, n)
      {
        if n == names[end] && loads[end].Some? {
          assert LastLoaded(names, loads, next, n, end);
        } else if IsLoaded(names, loads, end, n) {
          var k: nat :| LastLoaded(names, loads, end, n, k);
          assert LastLoaded(names, loads, next, n, k);
        }
      }
    }

    /** The wildcard topics whose consumers a publish on `topicName` consults. */
    method MatchingWildcards(topicName: string) returns (found: map<string, Topic>)
      requires Valid()
      ensures found.Keys == (set p | p in topics && Consults(p, topicName))
      ensures forall p | p in found :: found[p] == topics[p]
    {
      found := map[];
      var todo := wildcards.Keys;
      while todo != {}
        invariant todo <= wildcards.Keys
        invariant found.Keys == (set p | p in wildcards && p !in todo && Consults(p, topicName))
        invariant forall p | p in found :: found[p] == wildcards[p]
        decreases todo
      {
        var name :| name in todo;
        if name in compiledRegex && patterns.matches(name, topicName) {
          found := found[name := wildcards[name]];
        }
        todo := todo - {name};
      }
    }

    /** The topics that a consumer of `pattern` scans before its own. */
    method MatchingTopics(pattern: string) returns (found: map<string, Topic>)
      requires Valid() && pattern in topics
      ensures found.Keys == (set n | n in topics && Consults(pattern, n))
      ensures forall n | n in found :: found[n] == topics[n]
    {
      found := map[];
      if IsWildcard(pattern) && pattern in compiledRegex {
        var todo := topics.Keys;
        while todo != {}
          invariant todo <= topics.Keys
          invariant found.Keys == (set n | n in topics && n !in todo && Consults(pattern, n))
          invariant forall n | n in found :: found[n] == topics[n]
          decreases todo
        {
          var name :| name in todo;
          if patterns.matches(pattern, name) {
            found := found[name := topics[name]];
          }
          todo := todo - {name};
        }
      }
    }

    /** Publishing on `name` reaches the consumers of `pattern`; equally, consuming `pattern` scans `name`. */
    ghost predicate Consults(pattern: string, name: string)
    {
      IsWildcard(pattern) && patterns.compiles(pattern) && patterns.matches(pattern, name)
    }
  }
}
