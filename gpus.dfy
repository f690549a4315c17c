/**
  The GPU record (run.py, class GPU) and the cross-validation of the two
  device enumerations done in Nvidia._find_gpus.
*/
module Gpus {
  import opened Wrappers
  import opened PyFormat

  /**
    One device as an enumeration tool reports it. The index is the digit
    text the tool printed (the source keeps the matched text, not an int);
    the slot is the PCI bus id, reported only by the second tool.
  */
  datatype Gpu = Gpu(name: string, uuid: string, index: string, slot: Option<string>)

  /** GPU.__eq__: two records denote the same device when uuid and index agree. */
  predicate SameDevice(a: Gpu, b: Gpu) {
    a.uuid == b.uuid && a.index == b.index
  }

  /** The device equality is an equivalence that never looks at name or slot. */
  lemma SameDeviceProperties(a: Gpu, b: Gpu, c: Gpu, name: string, slot: Option<string>)
    ensures SameDevice(a, a)
    ensures SameDevice(a, b) ==> SameDevice(b, a)
    ensures SameDevice(a, b) && SameDevice(b, c) ==> SameDevice(a, c)
    ensures SameDevice(a, a.(name := name, slot := slot))
  {
  }

  /** The brace-free pieces of the two templates of GPU.__str__. */
  const NamePiece := "GPU <name="
  const UuidPiece := " uuid="
  const IndexPiece := " index=GPU:"
  const SlotPiece := " slot=PCI:"
  const ClosePiece := ">"

  /** `GPU <name={} uuid={} index=GPU:{}>` and the same with ` slot=PCI:{}` before the `>`. */
  const PlainTemplate := NamePiece + "{}" + UuidPiece + "{}" + IndexPiece + "{}" + ClosePiece
  const SlotTemplate := NamePiece + "{}" + UuidPiece + "{}" + IndexPiece + "{}" + SlotPiece + "{}" + ClosePiece

  lemma TemplatePiecesHaveNoBraces()
    ensures NoBraces(NamePiece) && NoBraces(UuidPiece) && NoBraces(IndexPiece)
    ensures NoBraces(SlotPiece) && NoBraces(ClosePiece)
  {
  }

  /** Formatting brace-free pieces separated by three `{}` fields. */
  lemma ThreeAutoFields(l0: string, l1: string, l2: string, l3: string, args: seq<string>)
    requires NoBraces(l0) && NoBraces(l1) && NoBraces(l2) && NoBraces(l3) && |args| >= 3
    ensures FormatFrom(l0 + "{}" + l1 + "{}" + l2 + "{}" + l3, args, Unset)
         == Some((l0 + args[0] + l1 + args[1] + l2 + args[2] + l3, Auto(3)))
  {
    FormatLiteralAlone(l0, args, Unset);
    AppendAutoField(l0, args, Unset);
    AppendLiteral(l0 + "{}", l1, args, Unset);
    AppendAutoField(l0 + "{}" + l1, args, Unset);
    AppendLiteral(l0 + "{}" + l1 + "{}", l2, args, Unset);
    AppendAutoField(l0 + "{}" + l1 + "{}" + l2, args, Unset);
    AppendLiteral(l0 + "{}" + l1 + "{}" + l2 + "{}", l3, args, Unset);
  }

  /** Formatting brace-free pieces separated by four `{}` fields. */
  lemma FourAutoFields(l0: string, l1: string, l2: string, l3: string, l4: string, args: seq<string>)
    requires NoBraces(l0) && NoBraces(l1) && NoBraces(l2) && NoBraces(l3) && NoBraces(l4)
    requires |args| >= 4
    ensures FormatFrom(l0 + "{}" + l1 + "{}" + l2 + "{}" + l3 + "{}" + l4, args, Unset)
         == Some((l0 + args[0] + l1 + args[1] + l2 + args[2] + l3 + args[3] + l4, Auto(4)))
  {
    ThreeAutoFields(l0, l1, l2, l3, args);
    AppendAutoField(l0 + "{}" + l1 + "{}" + l2 + "{}" + l3, args, Unset);
    AppendLiteral(l0 + "{}" + l1 + "{}" + l2 + "{}" + l3 + "{}", l4, args, Unset);
  }

  lemma PlainTemplateFormats(args: seq<string>)
    requires |args| == 3
    ensures FormatFrom(PlainTemplate, args, Unset)
         == Some((NamePiece + args[0] + UuidPiece + args[1] + IndexPiece + args[2] + ClosePiece, Auto(3)))
  {
    TemplatePiecesHaveNoBraces();
    ThreeAutoFields(NamePiece, UuidPiece, IndexPiece, ClosePiece, args);
  }

  lemma SlotTemplateFormats(args: seq<string>)
    requires |args| == 4
    ensures FormatFrom(SlotTemplate, args, Unset)
         == Some((NamePiece + args[0] + UuidPiece + args[1] + IndexPiece + args[2]
                  + SlotPiece + args[3] + ClosePiece, Auto(4)))
  {
    TemplatePiecesHaveNoBraces();
    FourAutoFields(NamePiece, UuidPiece, IndexPiece, SlotPiece, ClosePiece, args);
  }

  /**
    GPU.__str__: name, uuid and index always; the `slot=PCI:` part only
    when the record has a slot.
  */
  function Describe(g: Gpu): (r: string)
    ensures r == "GPU <name=" + g.name + " uuid=" + g.uuid + " index=GPU:" + g.index
               + (if g.slot.Some? then " slot=PCI:" + g.slot.value else "") + ">"
  {
    match g.slot
    case None =>
      PlainTemplateFormats([g.name, g.uuid, g.index]);
      Format(PlainTemplate, [g.name, g.uuid, g.index]).value
    case Some(slot) =>
      SlotTemplateFormats([g.name, g.uuid, g.index, slot]);
      Format(SlotTemplate, [g.name, g.uuid, g.index, slot]).value
  }

  /** Python's `g in cards`, which compares with GPU.__eq__. */
  predicate Matches(cards: seq<Gpu>, g: Gpu) {
    exists i :: 0 <= i < |cards| && SameDevice(g, cards[i])
  }

  /**
    The devices of the second enumeration that the first one also
    reports, as the records of the second enumeration, in its order.
  */
  function CrossValidated(first: seq<Gpu>, second: seq<Gpu>): seq<Gpu>
    decreases |second|
  {
    if second == [] then []
    else
      var last := second[|second| - 1];
      CrossValidated(first, second[..|second| - 1]) + (if Matches(first, last) then [last] else [])
  }

  /**
    Cross-validation acts on the second list piece by piece, so it keeps
    that list's order: validating a concatenation is validating each part.
  */
  lemma {:induction false} CrossValidatedAppend(first: seq<Gpu>, a: seq<Gpu>, b: seq<Gpu>)
    ensures CrossValidated(first, a + b) == CrossValidated(first, a) + CrossValidated(first, b)
    decreases |b|
  {
    if b == [] {
      assert a + b == a;
    } else {
      var b' := b[..|b| - 1];
      assert (a + b)[..|a + b| - 1] == a + b';
      CrossValidatedAppend(first, a, b');
    }
  }

  /** A single record is kept exactly when the first enumeration reports the same device. */
  lemma CrossValidatedSingle(first: seq<Gpu>, g: Gpu)
    ensures CrossValidated(first, [g]) == if Matches(first, g) then [g] else []
  {
    assert [g][..0] == [];
  }

  /**
    Every record of the second list that matches the first list is kept
    as often as it occurs there; nothing else is kept, in particular no
    record that only the first list reports.
  */
  lemma {:induction false} CrossValidatedCount(first: seq<Gpu>, second: seq<Gpu>, g: Gpu)
    ensures multiset(CrossValidated(first, second))[g]
         == if Matches(first, g) then multiset(second)[g] else 0
    decreases |second|
  {
    if second != [] {
      var init := second[..|second| - 1];
      CrossValidatedCount(first, init, g);
      assert second == init + [second[|second| - 1]];
    }
  }

  /** Membership in the result, both ways. */
  lemma CrossValidatedMembers(first: seq<Gpu>, second: seq<Gpu>, g: Gpu)
    ensures g in CrossValidated(first, second) <==> g in second && Matches(first, g)
  {
    CrossValidatedCount(first, second, g);
    assert g in CrossValidated(first, second) <==> multiset(CrossValidated(first, second))[g] > 0;
    assert g in second <==> multiset(second)[g] > 0;
  }
}
