/** Records exchanged by the workflow's nodes, the chat messages of a
    conversation, and the list-concatenation reducers of the graph states. */
module State {
  import opened Wrappers
  import opened PyStrings

  /** An analyst persona. The fields are declared affiliation first, but the
      persona text lists the name first. */
  datatype Analyst = Analyst(affiliation: string, name: string, role: string, description: string) {

    /** The `persona` property: four labelled lines, each ending in a newline. */
    function Persona(): string {
      "Name: " + name + "\nRole: " + role + "\nAffiliation: " + affiliation
        + "\nDescription: " + description + "\n"
    }
  }

  /** Structured output asked of the model for a search: one optional text
      field that is `None` unless the model fills it. */
  datatype SearchQuery = SearchQuery(searchQuery: Option<string>)

  datatype Role = System | Human | AI

  /** A chat message: its role, its text, and the optional `name` tag that
      marks the expert's answers. */
  datatype Message = Message(role: Role, content: string, name: Option<string>)

  function HumanMessage(content: string): Message {
    Message(Human, content, None)
  }

  // ---------------------------------------------------------------------------
  // Persona layout
  // ---------------------------------------------------------------------------

  /** The persona is the four labelled lines Name, Role, Affiliation,
      Description, in that order, each terminated by a newline. */
  lemma PersonaLines(a: Analyst)
    ensures a.Persona() == Join(["Name: " + a.name, "Role: " + a.role,
                                 "Affiliation: " + a.affiliation, "Description: " + a.description], "\n") + "\n"
  {
    JoinFour("Name: " + a.name, "Role: " + a.role, "Affiliation: " + a.affiliation, "Description: " + a.description, "\n");
    assert "\nRole: " == "\n" + "Role: " && "\nAffiliation: " == "\n" + "Affiliation: "
           && "\nDescription: " == "\n" + "Description: ";
    LabelledLines("Name: ", a.name, "Role: ", a.role, "Affiliation: ", a.affiliation, "Description: ", a.description, "\n");
  }

  /** Four entries joined: each separator sits between two neighbours. */
  lemma JoinFour(w: string, x: string, y: string, z: string, sep: string)
    ensures Join([w, x, y, z], sep) == w + sep + x + sep + y + sep + z
  {
    assert [w, x, y, z][1..] == [x, y, z] && [x, y, z][1..] == [y, z] && [y, z][1..] == [z];
    assert Join([y, z], sep) == y + sep + z;
    assert Join([x, y, z], sep) == x + sep + (y + sep + z);
    assert Join([w, x, y, z], sep) == w + sep + (x + sep + (y + sep + z));
  }

  /** Four labelled values on lines: each separator can be glued to the label
      that follows it. */
  lemma LabelledLines(l1: string, v1: string, l2: string, v2: string, l3: string, v3: string,
                      l4: string, v4: string, sep: string)
    ensures l1 + v1 + (sep + l2) + v2 + (sep + l3) + v3 + (sep + l4) + v4 + sep
            == (l1 + v1) + sep + (l2 + v2) + sep + (l3 + v3) + sep + (l4 + v4) + sep
  {
  }

  /** The persona opens with the analyst's name and always ends with a newline. */
  lemma PersonaStartsWithNameEndsWithNewline(a: Analyst)
    ensures StartsWith(a.Persona(), "Name: " + a.name)
    ensures a.Persona()[|a.Persona()| - 1] == '\n'
  {
    var p := a.Persona();
    var head := "Name: " + a.name;
    assert p == head + ("\nRole: " + a.role + "\nAffiliation: " + a.affiliation
                        + "\nDescription: " + a.description + "\n");
    assert p[..|head|] == head;
  }

  // ---------------------------------------------------------------------------
  // Reducers
  // ---------------------------------------------------------------------------

  /** `operator.add` on lists, the reducer of `context` and `sections`: the
      current entries stay in place and the update follows them. */
  function AddReducer<T>(current: seq<T>, update: seq<T>): (r: seq<T>)
    ensures |r| == |current| + |update|
    ensures r[..|current|] == current && r[|current|..] == update
  {
    current + update
  }

  /** The state channel after a series of updates arrives, one at a time. */
  function ApplyUpdates<T>(current: seq<T>, updates: seq<seq<T>>): seq<T>
    decreases |updates|
  {
    if updates == [] then current else ApplyUpdates(AddReducer(current, updates[0]), updates[1..])
  }

  function Flatten<T>(xs: seq<seq<T>>): seq<T>
    decreases |xs|
  {
    if xs == [] then [] else xs[0] + Flatten(xs[1..])
  }

  /** Updates only ever append: the channel ends as its old entries, unchanged
      and in order, followed by every update in arrival order. */
  lemma {:induction false} ApplyUpdatesAppends<T>(current: seq<T>, updates: seq<seq<T>>)
    ensures ApplyUpdates(current, updates) == current + Flatten(updates)
    decreases |updates|
  {
    if updates != [] {
      ApplyUpdatesAppends(current + updates[0], updates[1..]);
      assert current + updates[0] + Flatten(updates[1..]) == current + (updates[0] + Flatten(updates[1..]));
    }
  }

  /** One-element updates, as each finished interview sends `[section]`. */
  function Singletons<T>(xs: seq<T>): (r: seq<seq<T>>)
    ensures |r| == |xs| && forall i :: 0 <= i < |xs| ==> r[i] == [xs[i]]
  {
    seq(|xs|, i requires 0 <= i < |xs| => [xs[i]])
  }

  lemma {:induction false} FlattenSingletons<T>(xs: seq<T>)
    ensures Flatten(Singletons(xs)) == xs
    decreases |xs|
  {
    if xs != [] {
      assert Singletons(xs)[1..] == Singletons(xs[1..]);
      FlattenSingletons(xs[1..]);
      assert xs == [xs[0]] + xs[1..];
    }
  }

  /** Fan-in of the sections: whatever order the interviews finish in, each
      contributing its one section as an update of its own, `sections` ends
      as exactly those sections in that order, none lost or merged. */
  lemma SectionsFanIn(completionOrder: seq<string>)
    ensures ApplyUpdates([], Singletons(completionOrder)) == completionOrder
  {
    ApplyUpdatesAppends([], Singletons(completionOrder));
    FlattenSingletons(completionOrder);
    assert [] + completionOrder == completionOrder;
  }
}
