/** The assembly text builder of `source/generator/assembly.ts`: named sections and labels,
    each holding instructions, with a current label, a current section and the section that
    was current before the last `setSection`. */
module Assembly {
  import opened Results

  /** `AssemblyInstruction`; `"none"` marks an absent operand or comment. */
  datatype Instruction = Instruction(mnemonic: string, destination: string, source: string,
                                     comment: string, ignoreSemi: bool)

  const Absent := "none"

  /** `AssemblyLabel` and `AssemblySection` have the same shape: a name and the instructions
      pushed into it. */
  datatype Group = Group(name: string, instructions: seq<Instruction>)

  /** `AssemblyInstruction.build()`: the mnemonic and a space, the destination unless absent,
      the source unless absent (after `", "`, or after a space when `ignoreSemi` is set),
      then a tab and `; comment` unless the comment is absent. */
  function BuildInstruction(i: Instruction): string
  {
    var dest := if i.destination != Absent then i.destination else "";
    var src := if i.source != Absent then (if !i.ignoreSemi then ", " else " ") + i.source else "";
    var note := if i.comment != Absent then "; " + i.comment else "";
    i.mnemonic + " " + dest + src + "\t" + note
  }

  /** A built instruction starts with its mnemonic and a space. */
  lemma InstructionStartsWithMnemonic(i: Instruction)
    ensures var r := BuildInstruction(i); |r| > |i.mnemonic| && r[..|i.mnemonic| + 1] == i.mnemonic + " "
  {
    var r := BuildInstruction(i);
    var dest := if i.destination != Absent then i.destination else "";
    var src := if i.source != Absent then (if !i.ignoreSemi then ", " else " ") + i.source else "";
    var note := if i.comment != Absent then "; " + i.comment else "";
    assert r == (i.mnemonic + " ") + (dest + src + "\t" + note);
  }

  /** A built instruction ends with a tab, followed by `; comment` unless the comment is
      absent. */
  lemma InstructionEndsWithComment(i: Instruction)
    ensures var r := BuildInstruction(i); var note := if i.comment != Absent then "; " + i.comment else "";
      |r| > |note| && r[|r| - |note| - 1..] == "\t" + note
  {
    var r := BuildInstruction(i);
    var dest := if i.destination != Absent then i.destination else "";
    var src := if i.source != Absent then (if !i.ignoreSemi then ", " else " ") + i.source else "";
    var note := if i.comment != Absent then "; " + i.comment else "";
    assert r == (i.mnemonic + " " + dest + src) + ("\t" + note);
  }

  /** Absent operands print nothing: the mnemonic is followed by a space and the tab. */
  lemma AbsentOperandsOmitted(i: Instruction)
    requires i.destination == Absent && i.source == Absent
    ensures BuildInstruction(i) == i.mnemonic + " \t" + (if i.comment == Absent then "" else "; " + i.comment)
  {
  }

  /** The source operand follows the destination after `", "`, or after a single space when
      `ignoreSemi` is set (as for section instructions). */
  lemma SourceSeparator(i: Instruction)
    requires i.destination != Absent && i.source != Absent
    ensures var sep := if i.ignoreSemi then " " else ", ";
      var head := i.mnemonic + " " + i.destination + sep + i.source;
      var r := BuildInstruction(i);
      |r| > |head| && r[..|head|] == head && r[|head|] == '\t'
  {
    var sep := if i.ignoreSemi then " " else ", ";
    var head := i.mnemonic + " " + i.destination + sep + i.source;
    var note := if i.comment != Absent then "; " + i.comment else "";
    assert BuildInstruction(i) == head + ("\t" + note);
  }

  /** Names are unique within a list of labels or sections. */
  predicate Unique(gs: seq<Group>)
  {
    forall i, j :: 0 <= i < j < |gs| ==> gs[i].name != gs[j].name
  }

  /** `find`/`findIndex` by name: the first group with that name. */
  function FindGroup(gs: seq<Group>, name: string): (r: Option<nat>)
    ensures r.Some? ==> r.value < |gs| && gs[r.value].name == name
                        && forall j :: 0 <= j < r.value ==> gs[j].name != name
    ensures r.None? ==> forall j :: 0 <= j < |gs| ==> gs[j].name != name
  {
    if |gs| == 0 then None
    else if gs[0].name == name then Some(0)
    else
      var rest := FindGroup(gs[1..], name);
      if rest.None? then None
      else
        assert gs[1..][rest.value].name == name;
        Some(rest.value + 1)
  }

  /** Selecting a group by name: an existing one is selected, otherwise an empty one is
      appended and selected. */
  function Select(gs: seq<Group>, name: string): (r: (seq<Group>, nat))
    ensures r.1 < |r.0| && r.0[r.1].name == name
    ensures FindGroup(gs, name).Some? ==> r.0 == gs
    ensures FindGroup(gs, name).None? ==> r.0 == gs + [Group(name, [])]
  {
    var found := FindGroup(gs, name);
    if found.Some? then (gs, found.value) else (gs + [Group(name, [])], |gs|)
  }

  /** `group.instructions.push(instr)` on group `k`. */
  function Push(gs: seq<Group>, k: nat, instr: Instruction): (r: seq<Group>)
    requires k < |gs|
    ensures |r| == |gs| && r[k].name == gs[k].name && r[k].instructions == gs[k].instructions + [instr]
    ensures forall j :: 0 <= j < |gs| && j != k ==> r[j] == gs[j]
  {
    gs[k := gs[k].(instructions := gs[k].instructions + [instr])]
  }

  /** The instructions of a group, each on a new line after a tab. */
  function InstrLines(ins: seq<Instruction>): string
  {
    if |ins| == 0 then "" else InstrLines(ins[..|ins| - 1]) + "\n\t" + BuildInstruction(ins[|ins| - 1])
  }

  /** The first `n` labels, each as `name:` and its instructions, followed by a blank line. */
  function LabelsText(ls: seq<Group>, n: nat): string
    requires n <= |ls|
  {
    if n == 0 then "" else LabelsText(ls, n - 1) + LabelText(ls[n - 1])
  }

  function LabelText(l: Group): string
  {
    l.name + ":" + InstrLines(l.instructions) + "\n\n"
  }

  /** Section `i`: its header and instructions, a blank line unless it is the last section,
      and all labels when it is the `.text` section. */
  function SectionText(ss: seq<Group>, ls: seq<Group>, i: nat): string
    requires i < |ss|
  {
    "section " + ss[i].name + InstrLines(ss[i].instructions)
      + (if i < |ss| - 1 then "\n\n" else "")
      + (if ss[i].name == ".text" then LabelsText(ls, |ls|) else "")
  }

  /** The first `n` sections, in order. */
  function Render(ss: seq<Group>, ls: seq<Group>, n: nat): string
    requires n <= |ss|
  {
    if n == 0 then "" else Render(ss, ls, n - 1) + SectionText(ss, ls, n - 1)
  }

  /** `Assmebly`. */
  class Assembler {
    var labels: seq<Group>
    var currentLabel: nat
    var sections: seq<Group>
    var currentSection: nat
    var lastSection: nat

    /** Names are unique, and each index is in range once its list is non-empty (both lists
        start empty with index 0). */
    predicate Valid()
      reads this
    {
      && Unique(labels) && Unique(sections)
      && (if labels == [] then currentLabel == 0 else currentLabel < |labels|)
      && (if sections == [] then currentSection == 0 && lastSection == 0
          else currentSection < |sections| && lastSection < |sections|)
    }

    /** `new Assmebly(mainFunction)`: the `.text` section holding `global mainFunction`, and
        the label `mainFunction`, both selected. */
    constructor (mainFunction: string)
      ensures Valid()
      ensures sections == [Group(".text", [Instruction("global", mainFunction, Absent, "Main function", true)])]
      ensures labels == [Group(mainFunction, [])]
      ensures currentSection == 0 && lastSection == 0 && currentLabel == 0
    {
      labels, currentLabel, sections, currentSection, lastSection := [], 0, [], 0, 0;
      new;
      SetSection(".text");
      assert sections == [Group(".text", [])];
      SectionInstruction("global", mainFunction, Absent, "Main function");
      assert [] + [Instruction("global", mainFunction, Absent, "Main function", true)]
          == [Instruction("global", mainFunction, Absent, "Main function", true)];
      assert sections == [sections[0]];
      SetLabel(mainFunction);
    }

    /** The first index of a group named `name`, by a linear scan. */
    static method Find(gs: seq<Group>, name: string) returns (r: Option<nat>)
      ensures r == FindGroup(gs, name)
    {
      var i := 0;
      while i < |gs|
        invariant i <= |gs|
        invariant forall j :: 0 <= j < i ==> gs[j].name != name
      {
        if gs[i].name == name {
          return Some(i);
        }
        i := i + 1;
      }
      return None;
    }

    /** `instruction(...)`: appends to the current label only. */
    method AddInstruction(mnemonic: string, destination: string, source: string, comment: string)
      requires Valid() && labels != []
      modifies this
      ensures Valid()
      ensures labels == Push(old(labels), old(currentLabel), Instruction(mnemonic, destination, source, comment, false))
      ensures currentLabel == old(currentLabel) && sections == old(sections)
      ensures currentSection == old(currentSection) && lastSection == old(lastSection)
    {
      labels := Push(labels, currentLabel, Instruction(mnemonic, destination, source, comment, false));
    }

    /** `sectionInstruction(...)`: appends to the current section only, with `ignoreSemi`. */
    method SectionInstruction(mnemonic: string, destination: string, source: string, comment: string)
      requires Valid() && sections != []
      modifies this
      ensures Valid()
      ensures sections == Push(old(sections), old(currentSection), Instruction(mnemonic, destination, source, comment, true))
      ensures labels == old(labels) && currentLabel == old(currentLabel)
      ensures currentSection == old(currentSection) && lastSection == old(lastSection)
    {
      sections := Push(sections, currentSection, Instruction(mnemonic, destination, source, comment, true));
    }

    /** `backSection()`. */
    method BackSection()
      requires Valid()
      modifies this
      ensures Valid()
      ensures currentSection == old(lastSection)
      ensures labels == old(labels) && currentLabel == old(currentLabel)
      ensures sections == old(sections) && lastSection == old(lastSection)
    {
      currentSection := lastSection;
    }

    /** `setLabel(label)`: find or append, then select. */
    method SetLabel(name: string)
      requires Valid()
      modifies this
      ensures Valid()
      ensures (labels, currentLabel) == Select(old(labels), name)
      ensures sections == old(sections) && currentSection == old(currentSection) && lastSection == old(lastSection)
    {
      var found := Find(labels, name);
      if found.Some? {
        currentLabel := found.value;
      } else {
        labels := labels + [Group(name, [])];
        currentLabel := |labels| - 1;
      }
    }

    /** `setSection(section)`: remembers the current section, then finds or appends and
        selects. */
    method SetSection(section: string)
      requires Valid()
      modifies this
      ensures Valid()
      ensures (sections, currentSection) == Select(old(sections), section)
      ensures lastSection == old(currentSection)
      ensures labels == old(labels) && currentLabel == old(currentLabel)
    {
      lastSection := currentSection;
      var found := Find(sections, section);
      if found.Some? {
        currentSection := found.value;
      } else {
        sections := sections + [Group(section, [])];
        currentSection := |sections| - 1;
      }
    }

    /** `build()`. */
    method Build() returns (code: string)
      requires Valid()
      ensures code == Render(sections, labels, |sections|)
    {
      code := "";
      var index := 0;
      while index < |sections|
        invariant index <= |sections|
        invariant code == Render(sections, labels, index)
      {
        var text := BuildSection(index);
        code := code + text;
        index := index + 1;
      }
    }

    /** The body of `build()`'s `forEach` for section `index`. */
    method BuildSection(index: nat) returns (text: string)
      requires index < |sections|
      ensures text == SectionText(sections, labels, index)
    {
      var section := sections[index];
      text := AppendLines("section " + section.name, section.instructions);
      if index < |sections| - 1 {
        text := text + "\n\n";
      }
      if section.name == ".text" {
        text := AppendLabels(text, labels);
      }
    }

    /** The `forEach` over the labels, after the `.text` section. */
    static method AppendLabels(prefix: string, ls: seq<Group>) returns (r: string)
      ensures r == prefix + LabelsText(ls, |ls|)
    {
      r := prefix;
      var k := 0;
      while k < |ls|
        invariant k <= |ls|
        invariant r == prefix + LabelsText(ls, k)
      {
        var item := AppendLines(ls[k].name + ":", ls[k].instructions);
        r := r + (item + "\n\n");
        k := k + 1;
      }
    }

    /** The `for … of` loop that adds `\n\t` and the built instruction for each
        instruction. */
    static method AppendLines(prefix: string, ins: seq<Instruction>) returns (r: string)
      ensures r == prefix + InstrLines(ins)
    {
      r := prefix;
      var j := 0;
      while j < |ins|
        invariant j <= |ins|
        invariant r == prefix + InstrLines(ins[..j])
      {
        assert ins[..j + 1][..j] == ins[..j];
        r := r + "\n\t" + BuildInstruction(ins[j]);
        j := j + 1;
      }
      assert ins[..j] == ins;
    }
  }

  /** Selecting keeps names unique. */
  lemma SelectKeepsUnique(gs: seq<Group>, name: string)
    requires Unique(gs)
    ensures Unique(Select(gs, name).0)
  {
    if FindGroup(gs, name).None? {
      var r := gs + [Group(name, [])];
      forall i, j | 0 <= i < j < |r| ensures r[i].name != r[j].name {
        if j == |gs| {
          assert r[i] == gs[i];
        }
      }
    }
  }

  /** Selecting the same name twice selects the same group and adds nothing more. */
  lemma SelectIdempotent(gs: seq<Group>, name: string)
    ensures Select(Select(gs, name).0, name) == Select(gs, name)
  {
    var r := Select(gs, name);
    var again := FindGroup(r.0, name);
    if FindGroup(gs, name).None? {
      assert r.0[|gs|].name == name;
      assert again.Some? && again.value == |gs|;
    }
  }

  /** In a list with unique names, the selected group is the only one with that name. */
  lemma SelectedIsOnly(gs: seq<Group>, name: string, j: nat)
    requires Unique(gs) && j < |Select(gs, name).0| && Select(gs, name).0[j].name == name
    ensures j == Select(gs, name).1
  {
    SelectKeepsUnique(gs, name);
  }

  /** Without a `.text` section no label is emitted: the output is the same as with no
      labels at all. */
  lemma {:induction false} LabelsOnlyAfterText(ss: seq<Group>, ls: seq<Group>, n: nat)
    requires n <= |ss|
    requires forall i :: 0 <= i < |ss| ==> ss[i].name != ".text"
    ensures Render(ss, ls, n) == Render(ss, [], n)
  {
    if n > 0 {
      LabelsOnlyAfterText(ss, ls, n - 1);
      assert SectionText(ss, ls, n - 1) == SectionText(ss, [], n - 1);
    }
  }

  /** The `global` instruction of a fresh builder. */
  lemma GlobalLine(main: string)
    requires main != Absent
    ensures BuildInstruction(Instruction("global", main, Absent, "Main function", true)) == "global " + main + "\t; Main function"
  {
  }

  /** What a fresh builder produces: the `.text` section, and then the main label with no
      blank line before it, since `.text` is the last section. */
  lemma FreshBuild(main: string)
    requires main != Absent
    ensures var ss := [Group(".text", [Instruction("global", main, Absent, "Main function", true)])];
      Render(ss, [Group(main, [])], 1) == "section .text" + "\n\t" + ("global " + main + "\t; Main function") + (main + ":\n\n")
  {
    var i := Instruction("global", main, Absent, "Main function", true);
    var ss := [Group(".text", [i])];
    var ls := [Group(main, [])];
    var line := "global " + main + "\t; Main function";
    GlobalLine(main);
    assert [i][..0] == [];
    assert InstrLines([i]) == "\n\t" + line;
    assert LabelText(ls[0]) == main + ":\n\n";
    assert LabelsText(ls, 1) == main + ":\n\n";
    assert SectionText(ss, ls, 0) == "section .text" + ("\n\t" + line) + (main + ":\n\n");
    assert Render(ss, ls, 1) == "" + SectionText(ss, ls, 0);
  }
}
