/** The demo counter store of src/stores/counter.ts: a count and a name,
    two getters derived from them, and four actions. */
module Counter {
  import opened Wrappers

  const InitialName: string := "Focus Flow"
  const GreetingPrefix: string := "Hello, "

  /** The `greeting` getter's template. */
  function GreetingFor(name: string): string
  {
    GreetingPrefix + name + "!"
  }

  /** Reads the name back out of a greeting, if it is one. */
  function NameOf(greeting: string): Option<string>
  {
    if |greeting| >= |GreetingPrefix| + 1 && greeting[..|GreetingPrefix|] == GreetingPrefix && greeting[|greeting| - 1] == '!'
    then Some(greeting[|GreetingPrefix|..|greeting| - 1])
    else None
  }

  /** The name can be read back from its greeting. */
  lemma GreetingRoundTrip(name: string)
    ensures NameOf(GreetingFor(name)) == Some(name)
  {
    var g := GreetingFor(name);
    assert g[..|GreetingPrefix|] == GreetingPrefix;
    assert g[|GreetingPrefix|..|g| - 1] == name;
  }

  /** Different names give different greetings. */
  lemma GreetingInjective(a: string, b: string)
    ensures GreetingFor(a) == GreetingFor(b) ==> a == b
  {
    GreetingRoundTrip(a);
    GreetingRoundTrip(b);
  }

  class CounterStore {
    var count: int
    var name: string

    constructor ()
      ensures count == 0 && name == InitialName
    {
      count := 0;
      name := InitialName;
    }

    /** `doubleCount`: even, and half of it is the count. */
    function DoubleCount(): (r: int)
      reads this
      ensures r % 2 == 0 && r / 2 == count
    {
      count * 2
    }

    /** `greeting`: the name can be read back from it. */
    function Greeting(): (r: string)
      reads this
      ensures NameOf(r) == Some(name)
    {
      GreetingRoundTrip(name);
      GreetingFor(name)
    }

    method Increment()
      modifies this
      ensures count == old(count) + 1 && name == old(name)
    {
      count := count + 1;
    }

    method Decrement()
      modifies this
      ensures count == old(count) - 1 && name == old(name)
    {
      count := count - 1;
    }

    method Reset()
      modifies this
      ensures count == 0 && name == old(name)
    {
      count := 0;
    }

    method SetName(newName: string)
      modifies this
      ensures name == newName && count == old(count)
    {
      name := newName;
    }
  }

  /** An increment followed by a decrement restores the store. */
  method IncrementThenDecrement(c: CounterStore)
    modifies c
    ensures c.count == old(c.count) && c.name == old(c.name)
  {
    c.Increment();
    c.Decrement();
  }

  /** A second reset finds nothing left to change. */
  method ResetTwice(c: CounterStore)
    modifies c
    ensures c.count == 0 && c.name == old(c.name)
  {
    c.Reset();
    c.Reset();
  }
}
