// The session context: variables, the journal of written keys, and merging one context into another.

module Context {
  import opened Json
  import opened Ordering

  type Variables = map<string, Json>

  datatype Mark = Mark(key: string, at: nat)

  datatype MergePolicy = LastWriterWins | SkipConflicts | FailConflicts

  /** The journal is a map ordered by key. */
  ghost predicate ByKey(journal: seq<Mark>) {
    forall i, j :: 0 <= i < j < |journal| ==> Less(journal[i].key, journal[j].key)
  }

  ghost predicate Logged(journal: seq<Mark>, key: string) {
    exists i :: 0 <= i < |journal| && journal[i].key == key
  }

  function Log(journal: seq<Mark>, key: string, at: nat): seq<Mark> {
    if journal == [] || Less(key, journal[0].key) then [Mark(key, at)] + journal
    else if journal[0].key == key then [Mark(key, at)] + journal[1..]
    else [journal[0]] + Log(journal[1..], key, at)
  }

  /** Logging keeps the key order, and changes the mark of that key alone. */
  lemma {:induction false} LogMarks(journal: seq<Mark>, key: string, at: nat)
    requires ByKey(journal)
    ensures ByKey(Log(journal, key, at))
    ensures forall m :: m in Log(journal, key, at) <==> m == Mark(key, at) || (m in journal && m.key != key)
  {
    hide Less;
    if journal == [] {
      assert Log(journal, key, at) == [Mark(key, at)];
    } else {
      var head, tail := journal[0], journal[1..];
      assert journal == [head] + tail;
      LessTotal(key, head.key);
      if Less(key, head.key) {
        forall x | x in journal
          ensures Less(key, x.key) && x.key != key
        {
          if x != head {
            LessTransitive(key, head.key, x.key);
          }
          LessTotal(key, x.key);
        }
      } else if head.key == key {
        forall x | x in tail
          ensures Less(key, x.key) && x.key != key
        {
          LessTotal(key, x.key);
        }
      } else {
        LogMarks(tail, key, at);
      }
    }
  }

  // ------------------------------------------------------------------ merging

  /** Variables after merging the chosen keys of another context, key by key. */
  function Merged(vars: Variables, other: Variables, keys: set<string>, policy: MergePolicy): Variables {
    map k | k in vars.Keys + other.Keys && (k in vars || Chosen(keys, k)) ::
      if k in vars && (k !in other || !Chosen(keys, k) || (vars[k] != other[k] && policy == SkipConflicts)) then vars[k]
      else other[k]
  }

  /** An empty key set means every key. */
  predicate Chosen(keys: set<string>, k: string) {
    keys == {} || k in keys
  }

  function Conflicts(vars: Variables, other: Variables, keys: set<string>): set<string> {
    set k | k in other && Chosen(keys, k) && k in vars && vars[k] != other[k]
  }

  /**
   * Merging takes over the named keys, or every key when none is named. A value of the other context replaces
   * one that differs unless differing keys are skipped; keys of one side only stay or come over.
   */
  lemma MergeTakes(vars: Variables, other: Variables, keys: set<string>, policy: MergePolicy, k: string)
    ensures var m := Merged(vars, other, keys, policy);
            && (k in m <==> k in vars || (k in other && (keys == {} || k in keys)))
            && (k in other && k !in vars && (keys == {} || k in keys) ==> m[k] == other[k])
            && (k in vars && k in other && (keys == {} || k in keys) ==>
                  m[k] == if policy == SkipConflicts then vars[k] else other[k])
            && (k in vars && (k !in other || (keys != {} && k !in keys)) ==> m[k] == vars[k])
  {
  }

  /** The conflicts are the keys on which keeping and replacing would end differently. */
  lemma ConflictsShow(vars: Variables, other: Variables, keys: set<string>, k: string)
    ensures var kept := Merged(vars, other, keys, SkipConflicts);
            var replaced := Merged(vars, other, keys, LastWriterWins);
            && kept.Keys == replaced.Keys
            && (k in Conflicts(vars, other, keys) <==> k in kept && kept[k] != replaced[k])
  {
  }

  class RuntimeContext {
    var variables: Variables
    var journal: seq<Mark>
    var sequence: nat
    var deleteOnNull: bool

    constructor ()
      ensures variables == map[] && journal == [] && sequence == 0 && Valid()
    {
      variables, journal, sequence, deleteOnNull := map[], [], 0, false;
    }

    /** Marks count up from one. */
    ghost predicate Valid()
      reads this
    {
      ByKey(journal) && forall m :: m in journal ==> 0 < m.at <= sequence
    }

    /** An isolated copy: the same variables, nothing written yet. */
    method Fork() returns (child: RuntimeContext)
      ensures fresh(child) && child.Valid() && child.variables == variables && child.journal == []
    {
      child := new RuntimeContext();
      child.variables := variables;
    }

    method RecordWrite(key: string)
      requires Valid()
      modifies `journal, `sequence
      ensures Valid() && sequence == old(sequence) + 1 && journal == Log(old(journal), key, sequence)
      ensures forall k :: Logged(journal, k) <==> Logged(old(journal), k) || k == key
    {
      LogMarks(journal, key, sequence + 1);
      LoggedAfter(journal, key, sequence + 1);
      sequence := sequence + 1;
      journal := Log(journal, key, sequence);
    }

    method SetVariable(key: string, value: Json)
      requires Valid()
      modifies `variables, `journal, `sequence
      ensures Valid() && forall k :: Logged(journal, k) <==> Logged(old(journal), k) || k == key
      ensures variables == if value == Null && deleteOnNull then old(variables) - {key}
                           else old(variables)[key := value]
    {
      if value == Null && deleteOnNull {
        variables := variables - {key};
      } else {
        variables := variables[key := value];
      }
      RecordWrite(key);
    }

    method Erase(key: string)
      requires Valid()
      modifies `variables, `journal, `sequence
      ensures Valid() && forall k :: Logged(journal, k) <==> Logged(old(journal), k) || k == key
      ensures variables == old(variables) - {key}
    {
      variables := variables - {key};
      RecordWrite(key);
    }

    /**
     * The keys marked after `since`, walking the journal backwards by key and stopping at the first older
     * mark. From the very start it yields every written key; in general it is right exactly when no newer
     * mark sits before an older one in key order.
     */
    method ChangedSince(since: nat) returns (changed: set<string>)
      requires Valid()
      ensures since == 0 ==> forall k :: k in changed <==> Logged(journal, k)
      ensures (forall k :: k in changed <==> exists m :: m in journal && m.key == k && m.at > since)
              <==> NewestLast(journal, since)
    {
      changed := {};
      var i := |journal|;
      while i > 0 && journal[i - 1].at > since
        invariant 0 <= i <= |journal|
        invariant forall j :: i <= j < |journal| ==> journal[j].at > since
        invariant forall k :: k in changed <==> exists j :: i <= j < |journal| && journal[j].key == k
        decreases i
      {
        changed := changed + {journal[i - 1].key};
        i := i - 1;
      }
      assert forall j :: 0 <= j < |journal| ==> journal[j] in journal;
      SuffixIsRight(journal, since, i, changed);
    }

    /** Takes the chosen keys over; the journal does not see it. */
    method MergeFrom(other: RuntimeContext, keys: set<string>, policy: MergePolicy) returns (conflicts: set<string>)
      requires other != this
      modifies `variables
      ensures variables == Merged(old(variables), other.variables, keys, policy)
      ensures conflicts == Conflicts(old(variables), other.variables, keys)
    {
      conflicts := {};
      var todo := other.variables.Keys;
      ghost var before := variables;
      while todo != {}
        invariant todo <= other.variables.Keys
        invariant forall k :: k in variables <==> k in before || (k in other.variables && k !in todo && Chosen(keys, k))
        invariant forall k :: k in variables ==>
                    variables[k] == if k in todo || k !in other.variables then before[k]
                                    else Merged(before, other.variables, keys, policy)[k]
        invariant conflicts == Conflicts(before, other.variables, keys) - todo
        decreases todo
      {
        var k :| k in todo;
        todo := todo - {k};
        if !Chosen(keys, k) {
          continue;
        }
        if k in variables && variables[k] != other.variables[k] {
          conflicts := conflicts + {k};
          if policy == SkipConflicts {
            continue;
          }
        }
        variables := variables[k := other.variables[k]];
      }
    }
  }

  /** No mark newer than `since` sits before one that is not, in key order. */
  ghost predicate NewestLast(journal: seq<Mark>, since: nat) {
    forall i, j :: 0 <= i < j < |journal| && journal[i].at > since ==> journal[j].at > since
  }

  lemma LoggedAfter(journal: seq<Mark>, key: string, at: nat)
    requires ByKey(journal)
    ensures forall k :: Logged(Log(journal, key, at), k) <==> Logged(journal, k) || k == key
  {
    LogMarks(journal, key, at);
    var after := Log(journal, key, at);
    forall k
      ensures Logged(after, k) <==> Logged(journal, k) || k == key
    {
      assert Mark(key, at) in after;
    }
  }

  lemma SuffixIsRight(journal: seq<Mark>, since: nat, i: nat, changed: set<string>)
    requires ByKey(journal) && i <= |journal| && (i > 0 ==> journal[i - 1].at <= since)
    requires forall j :: i <= j < |journal| ==> journal[j].at > since
    requires forall k :: k in changed <==> exists j :: i <= j < |journal| && journal[j].key == k
    ensures (forall k :: k in changed <==> exists m :: m in journal && m.key == k && m.at > since)
            <==> NewestLast(journal, since)
  {
    if NewestLast(journal, since) {
      assert forall j :: 0 <= j < i ==> journal[j].at <= since;
    } else {
      var a, b :| 0 <= a < b < |journal| && journal[a].at > since && journal[b].at <= since;
      assert journal[a] in journal && b < i;
      forall j | i <= j < |journal|
        ensures journal[j].key != journal[a].key
      {
        LessTotal(journal[a].key, journal[j].key);
      }
      assert journal[a].key !in changed;
    }
  }
}
