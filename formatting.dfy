/** The one-line project label shown in pickers and headers. */
module Formatting {
  import opened Common
  import opened Text
  import opened Entities

  /** Database ids start at 1 and displayed matter numbers at 732. */
  const ProjectIdOffset: int := 731

  const NoProjectLabel: string := "—"
  const UnknownClient: string := "Unknown Client"

  /** The client's name as stored, or "Unknown Client" when the project has none. */
  function ClientName(p: Project): (r: string)
    ensures p.client.Some? ==> r == p.client.value.name
    ensures p.client.None? ==> r == UnknownClient
  {
    if p.client.Some? then p.client.value.name else UnknownClient
  }

  /**
   * The transaction type as shown and the word before the location: the two
   * English types become Spanish with "en", anything else stays as stored with "@".
   */
  function TypeAndSeparator(transactionType: string): (r: (string, string))
    ensures transactionType == "Purchase" ==> r == ("Compra", "en")
    ensures transactionType == "Sale" ==> r == ("Venta", "en")
    ensures transactionType != "Purchase" && transactionType != "Sale" ==> r == (transactionType, "@")
  {
    if transactionType == "Purchase" then ("Compra", "en")
    else if transactionType == "Sale" then ("Venta", "en")
    else (transactionType, "@")
  }

  /** Only the two known transaction types are written with the Spanish "en"; every other type gets "@". */
  lemma SeparatorIsEnForKnownTypes(transactionType: string)
    ensures TypeAndSeparator(transactionType).1 == "en" <==> (transactionType == "Purchase" || transactionType == "Sale")
  {
  }

  /** `formatProjectLabel`: "<number> - <client> - <type> <separator> <location>", or "—" without a project. */
  function FormatProjectLabel(p: Option<Project>): (r: string)
    ensures p.None? ==> r == NoProjectLabel
  {
    match p
    case None => NoProjectLabel
    case Some(q) =>
      var (kind, sep) := TypeAndSeparator(q.transactionType);
      IntToString(q.id + ProjectIdOffset) + " - " + ClientName(q) + " - " + kind + " " + sep + " " + q.location
  }

  /**
   * A project's label starts with its displayed number (id + 731) and its
   * client's name as stored, and ends with " <location>".
   */
  lemma LabelShape(p: Project)
    ensures var r := FormatProjectLabel(Some(p));
      && StartsWith(r, IntToString(p.id + ProjectIdOffset) + " - " + ClientName(p) + " - ")
      && |r| >= |p.location| + 1 && r[|r| - |p.location| - 1..] == " " + p.location
  {
    var ts := TypeAndSeparator(p.transactionType);
    var head := IntToString(p.id + ProjectIdOffset) + " - " + ClientName(p) + " - ";
    var tail := " " + p.location;
    assert FormatProjectLabel(Some(p)) == head + (ts.0 + " " + ts.1) + tail;
    Framed(head, ts.0 + " " + ts.1, tail);
  }

  /** What follows the client in a label is a suffix of the label. */
  lemma EndsWithTypePart(head: string, kind: string, sep: string, loc: string)
    ensures EndsWith(head + " - " + kind + " " + sep + " " + loc, " - " + kind + " " + sep + " " + loc)
  {
    var s1 := " - " + kind;
    var s2 := s1 + " ";
    var s3 := s2 + sep;
    var s4 := s3 + " ";
    var s5 := s4 + loc;
    assert head + " - " + kind == head + s1;
    assert head + s1 + " " == head + s2;
    assert head + s2 + sep == head + s3;
    assert head + s3 + " " == head + s4;
    assert head + s4 + loc == head + s5;
    assert (head + s5)[|head|..] == s5;
  }

  /** The label ends with " - <type> <separator> <location>". */
  lemma LabelTail(p: Project)
    ensures var ts := TypeAndSeparator(p.transactionType);
      EndsWith(FormatProjectLabel(Some(p)), " - " + ts.0 + " " + ts.1 + " " + p.location)
  {
    var ts := TypeAndSeparator(p.transactionType);
    EndsWithTypePart(IntToString(p.id + ProjectIdOffset) + " - " + ClientName(p), ts.0, ts.1, p.location);
  }

  /**
   * The label ends with the localised type, the separator and the
   * location: " - Compra en <location>" for a purchase, " - Venta en
   * <location>" for a sale, and " - <type> @ <location>" otherwise.
   */
  lemma LabelEnding(p: Project)
    ensures var r := FormatProjectLabel(Some(p));
      && (p.transactionType == "Purchase" ==> EndsWith(r, " - Compra en " + p.location))
      && (p.transactionType == "Sale" ==> EndsWith(r, " - Venta en " + p.location))
      && (p.transactionType != "Purchase" && p.transactionType != "Sale" ==>
            EndsWith(r, " - " + p.transactionType + " @ " + p.location))
  {
    LabelTail(p);
    var t := p.transactionType;
    if t == "Purchase" {
      assert " - " + "Compra" + " " + "en" + " " == " - Compra en ";
    } else if t == "Sale" {
      assert " - " + "Venta" + " " + "en" + " " == " - Venta en ";
    } else {
      EndsWithRegrouped(t, p.location);
    }
  }

  /** " - <type> @ <location>" regrouped around the type. */
  lemma EndsWithRegrouped(t: string, loc: string)
    ensures " - " + t + " " + "@" + " " + loc == " - " + t + " @ " + loc
  {
    assert " " + "@" + " " == " @ ";
    AppendTail(" - " + t, " ", "@");
    AppendTail(" - " + t, " " + "@", " ");
  }

  /** Everything after the displayed number: the same for matters of the same client, type and location. */
  function LabelRest(p: Project): string
  {
    var ts := TypeAndSeparator(p.transactionType);
    " - " + ClientName(p) + " - " + ts.0 + " " + ts.1 + " " + p.location
  }

  /** Regrouping the seven pieces of a label after its first one. */
  lemma RegroupAfterNumber(a: string, c: string, kind: string, sep: string, loc: string)
    ensures a + " - " + c + " - " + kind + " " + sep + " " + loc
         == a + (" - " + c + " - " + kind + " " + sep + " " + loc)
  {
    var s1 := " - " + c;
    var s2 := s1 + " - ";
    var s3 := s2 + kind;
    var s4 := s3 + " ";
    var s5 := s4 + sep;
    var s6 := s5 + " ";
    assert a + " - " + c == a + s1;
    assert a + s1 + " - " == a + s2;
    assert a + s2 + kind == a + s3;
    assert a + s3 + " " == a + s4;
    assert a + s4 + sep == a + s5;
    assert a + s5 + " " == a + s6;
    assert a + s6 + loc == a + (s6 + loc);
  }

  lemma LabelSplit(p: Project)
    ensures FormatProjectLabel(Some(p)) == IntToString(p.id + ProjectIdOffset) + LabelRest(p)
  {
    var ts := TypeAndSeparator(p.transactionType);
    RegroupAfterNumber(IntToString(p.id + ProjectIdOffset), ClientName(p), ts.0, ts.1, p.location);
  }

  /**
   * Two matters of the same client, type and location still get different
   * labels: the displayed number tells them apart.
   */
  lemma LabelsDistinguishIds(p: Project, q: Project)
    requires p.id != q.id
    requires p.client == q.client && p.transactionType == q.transactionType && p.location == q.location
    ensures FormatProjectLabel(Some(p)) != FormatProjectLabel(Some(q))
  {
    var a, b := IntToString(p.id + ProjectIdOffset), IntToString(q.id + ProjectIdOffset);
    var rest := LabelRest(p);
    assert LabelRest(q) == rest;
    LabelSplit(p);
    LabelSplit(q);
    if a + rest == b + rest {
      assert a == (a + rest)[..|a|] == (b + rest)[..|b|] == b;
      IntToStringInjective(p.id + ProjectIdOffset, q.id + ProjectIdOffset);
    }
  }

  /** Matter number 732 is printed as the three digits "732". */
  lemma Number732()
    ensures IntToString(732) == "732"
  {
    assert NatToString(7) == "7";
    assert NatToString(73) == NatToString(7) + "3";
  }

  /**
   * The worked example: matter 1 of Laura Pérez, a purchase in Ojén. The
   * client's name is printed as stored, with no reordering.
   */
  lemma LabelExample(p: Project)
    requires p.id == 1 && p.transactionType == "Purchase" && p.location == "Ojén"
    requires p.client == Some(Client(7, "Laura Pérez"))
    ensures FormatProjectLabel(Some(p)) == "732" + " - " + "Laura Pérez" + " - " + "Compra" + " " + "en" + " " + "Ojén"
  {
    Number732();
    assert ClientName(p) == "Laura Pérez";
    assert TypeAndSeparator(p.transactionType) == ("Compra", "en");
  }

  /** A project without a client still gets a label, naming "Unknown Client". */
  lemma MissingClientNamed(p: Project)
    requires p.client.None?
    ensures StartsWith(FormatProjectLabel(Some(p)), IntToString(p.id + ProjectIdOffset) + " - " + UnknownClient + " - ")
  {
    LabelShape(p);
  }
}
