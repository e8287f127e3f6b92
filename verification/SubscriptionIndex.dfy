/** The subscriber's index of subjects and functions, and the relation it stands for. */
module SubscriptionIndex {
  import opened Bytes

  type Index = map<string, set<string>>
  type Pair = (string, string)

  /** The answer of one callback function. */
  datatype CallResult = Called | NotFound | OtherError

  /** One call of a callback function with the data of a message. */
  datatype Call = Call(fnName: string, data: seq<byte>)

  /** Each function called once with the data. */
  function CallsTo(funcs: set<string>, data: seq<byte>): multiset<Call> {
    multiset(set f | f in funcs :: Call(f, data))
  }

  /** The calls that a message on a subject gives rise to. */
  function CallsOf(index: Index, subject: string, data: seq<byte>): multiset<Call> {
    if subject in index then CallsTo(index[subject], data) else multiset{}
  }

  /** The (subject, function) pairs of an index. */
  function Pairs(index: Index): set<Pair> {
    set s, f | s in index && f in index[s] :: (s, f)
  }

  function Add(index: Index, subject: string, fnName: string): Index {
    if subject in index then index[subject := index[subject] + {fnName}] else index[subject := {fnName}]
  }

  /** The subject goes with its last function, or when it has none to begin with. */
  function Remove(index: Index, subject: string, fnName: string): Index {
    if subject !in index then index
    else if index[subject] - {fnName} == {} then index - {subject}
    else index[subject := index[subject] - {fnName}]
  }

  function RemoveSubject(index: Index, subject: string): Index {
    index - {subject}
  }

  /** The subject stays, even when none of its functions is kept. */
  function Retain(index: Index, subject: string, answer: string -> CallResult): Index {
    if subject in index then
      index[subject := set f | f in index[subject] && answer(f) != NotFound]
    else index
  }

  lemma CallsOfPairs(index: Index, subject: string, data: seq<byte>, c: Call)
    ensures CallsOf(index, subject, data)[c]
         == if (subject, c.fnName) in Pairs(index) && c.data == data then 1 else 0
  {
  }

  lemma NoCalls(data: seq<byte>)
    ensures CallsTo({}, data) == multiset{}
  {
  }

  lemma CallsToOneMore(funcs: set<string>, fnName: string, data: seq<byte>)
    requires fnName !in funcs
    ensures CallsTo(funcs + {fnName}, data) == CallsTo(funcs, data) + multiset{Call(fnName, data)}
  {
    var calls := set f | f in funcs :: Call(f, data);
    assert (set f | f in funcs + {fnName} :: Call(f, data)) == calls + {Call(fnName, data)};
    assert Call(fnName, data) !in calls;
  }

  lemma AddPairs(index: Index, subject: string, fnName: string)
    ensures Pairs(Add(index, subject, fnName)) == Pairs(index) + {(subject, fnName)}
    ensures Add(index, subject, fnName).Keys == index.Keys + {subject}
  {
  }

  lemma RemovePairs(index: Index, subject: string, fnName: string)
    ensures Pairs(Remove(index, subject, fnName)) == Pairs(index) - {(subject, fnName)}
    ensures forall s :: s in Remove(index, subject, fnName)
              <==> s in index && (s == subject ==> !(index[s] <= {fnName}))
  {
    var index' := Remove(index, subject, fnName);
    if subject in index {
      assert index[subject] <= {fnName} <==> index[subject] - {fnName} == {};
    }
    forall p | p in Pairs(index) - {(subject, fnName)} ensures p in Pairs(index') {
      assert p.0 in index && p.1 in index[p.0];
      if p.0 == subject {
        assert p.1 in index[subject] - {fnName};
      }
      assert p.0 in index' && p.1 in index'[p.0];
    }
  }

  lemma RemoveSubjectPairs(index: Index, subject: string)
    ensures RemoveSubject(index, subject).Keys == index.Keys - {subject}
    ensures Pairs(RemoveSubject(index, subject)) == set p | p in Pairs(index) && p.0 != subject
  {
  }

  lemma RetainPairs(index: Index, subject: string, answer: string -> CallResult)
    ensures Pairs(Retain(index, subject, answer))
         == set p | p in Pairs(index) && !(p.0 == subject && answer(p.1) == NotFound)
    ensures Retain(index, subject, answer).Keys == index.Keys
  {
  }
}
