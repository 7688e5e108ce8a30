/**
 * The shared `<style>` element: its sheet is obtained on first use and
 * rules are inserted into it one at a time; nothing is ever removed.
 */
module StyleSheets {

  /** `rules` with `cssText` inserted before position `index`. */
  function InsertAt(rules: seq<string>, index: nat, cssText: string): (r: seq<string>)
    requires index <= |rules|
  {
    rules[..index] + [cssText] + rules[index..]
  }

  /**
   * Insertion adds exactly the new rule at `index`: the rules before it keep
   * their positions and the ones from `index` on move back by one.
   */
  lemma InsertAtShifts(rules: seq<string>, index: nat, cssText: string)
    requires index <= |rules|
    ensures |InsertAt(rules, index, cssText)| == |rules| + 1
    ensures InsertAt(rules, index, cssText)[index] == cssText
    ensures forall k :: 0 <= k < index ==> InsertAt(rules, index, cssText)[k] == rules[k]
    ensures forall k :: index <= k < |rules| ==> InsertAt(rules, index, cssText)[k + 1] == rules[k]
    ensures multiset(InsertAt(rules, index, cssText)) == multiset(rules) + multiset{cssText}
  {
    var r := InsertAt(rules, index, cssText);
    assert rules == rules[..index] + rules[index..];
  }

  /** Inserting at the front puts the rule first and shifts all others back. */
  lemma InsertAtFront(rules: seq<string>, cssText: string)
    ensures InsertAt(rules, 0, cssText) == [cssText] + rules
  {
    assert rules[..0] == [] && rules[0..] == rules;
  }

  class StyleSheet {
    /** Whether the `<style>` element was mounted and its sheet obtained. */
    var mounted: bool
    /** The rules of the sheet, in sheet order. */
    var rules: seq<string>

    /** The `<style>` element is created but not yet mounted. */
    constructor ()
      ensures !mounted && rules == []
    {
      mounted := false;
      rules := [];
    }

    /** Mounts the `<style>` element into the document head and takes its sheet. */
    method AppendStyleSheet()
      modifies this`mounted
      ensures mounted
    {
      mounted := true;
    }

    /**
     * `add(cssText, index = 0)`: mounts the sheet on first use, then inserts
     * the rule before position `index`. An index past the end makes
     * `insertRule` fail (an IndexSizeError) and the sheet stays as it was.
     */
    method Add(cssText: string, index: nat := 0) returns (inserted: bool)
      modifies this
      ensures mounted
      ensures inserted == (index <= |old(rules)|)
      ensures inserted ==> rules == InsertAt(old(rules), index, cssText)
      ensures !inserted ==> rules == old(rules)
      ensures |rules| >= |old(rules)|
    {
      if !mounted {
        AppendStyleSheet();
      }
      inserted := index <= |rules|;
      if inserted {
        rules := InsertAt(rules, index, cssText);
      }
    }
  }
}
