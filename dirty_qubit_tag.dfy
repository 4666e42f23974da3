/**
 * The dirty-qubit meta tag of projectq/meta/_dirtyqubit.py: a value holding the
 * set of preferred carrier qubit IDs, compared structurally.
 */
module DirtyQubitTags {

  type QubitId = int

  /** Tags that commands carry. Every tag class other than DirtyQubitTag
   *  (ComputeTag, ...) is represented by its class name. */
  datatype Tag = DirtyQubitTag(carrierIds: set<QubitId>) | OtherTag(className: string)

  /** The classes of tags, as passed to `is_meta_tag_handler`. */
  datatype TagClass = DirtyQubitTagClass | OtherTagClass(className: string)

  function ClassOf(t: Tag): TagClass
  {
    match t
    case DirtyQubitTag(_) => DirtyQubitTagClass
    case OtherTag(name) => OtherTagClass(name)
  }

  /** The set of the elements of a sequence. */
  function Elements(s: seq<QubitId>): set<QubitId>
  {
    set x | x in s
  }

  /** `DirtyQubitTag(carriers)`: the carrier IDs are the given IDs, duplicates collapsed. */
  function NewDirtyQubitTag(carriers: seq<QubitId>): (t: Tag)
    ensures t.DirtyQubitTag?
    ensures forall x :: x in t.carrierIds <==> x in carriers
  {
    DirtyQubitTag(Elements(carriers))
  }

  /** `DirtyQubitTag.__eq__`: `other` is a DirtyQubitTag with the same carrier set. */
  function Equals(self: Tag, other: Tag): (r: bool)
    requires self.DirtyQubitTag?
    ensures r <==> self == other
  {
    other.DirtyQubitTag? && self.carrierIds == other.carrierIds
  }

  /** Carrier lists with the same IDs, in any order and with any repeats,
   *  build equal tags, and only such lists do. */
  lemma SameCarriersEqualTags(a: seq<QubitId>, b: seq<QubitId>)
    ensures Equals(NewDirtyQubitTag(a), NewDirtyQubitTag(b)) <==> forall x :: x in a <==> x in b
  {
    if forall x :: x in a <==> x in b {
      assert Elements(a) == Elements(b);
    }
  }

  /** `DirtyQubitTag.__ne__`: the negation of `__eq__`. */
  function NotEquals(self: Tag, other: Tag): (r: bool)
    requires self.DirtyQubitTag?
    ensures r <==> !Equals(self, other)
    ensures r <==> self != other
  {
    !Equals(self, other)
  }

  /** A dirty-qubit tag never equals a tag of another class. */
  lemma NeverEqualsOtherClass(self: Tag, other: Tag)
    requires self.DirtyQubitTag? && !other.DirtyQubitTag?
    ensures !Equals(self, other) && NotEquals(self, other)
  {
  }

  /** The scenario of test_dirty_qubit_tag: two default tags are equal, and a
   *  default tag differs from a ComputeTag. */
  lemma DefaultTagsCompare()
    ensures Equals(NewDirtyQubitTag([]), NewDirtyQubitTag([]))
    ensures !NotEquals(NewDirtyQubitTag([]), NewDirtyQubitTag([]))
    ensures !Equals(NewDirtyQubitTag([]), OtherTag("ComputeTag"))
  {
    assert NewDirtyQubitTag([]).carrierIds == {};
  }
}
