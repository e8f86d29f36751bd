/** The three text generators behind createEntity: createClInitContent,
    createInitContent and createSharedContent. Each picks one of two template
    literals and splices the settings' values in verbatim (no escaping).
    A template literal is written as its fixed strings, each spelled one
    source line per string literal (long lines in two). */
module Templates {
  import opened Js
  import opened Text
  import opened Settings

  /* Each fixed string is written as the list of its source lines (a long
     line in two), joined. Every fixed string after a substitution opens with
     the line that closes that substitution. */

  /** createClInitContent with show3DName: five substitutions, font, text,
      font, text, font, between six fixed strings. */
  const LabelClInit: seq<string> := [
    Join(LabelIncludes + LabelDrawStart),
    Join(["\")\n"] + LabelMeasure),
    Join(["\")\n"] + LabelBox + LabelCamera),
    Join(["\")\n"] + LabelBackdrop),
    "\", \"",
    Join(["\", 0, 0, Color(255, 255, 255), ", "TEXT_ALIGN_CENTER, TEXT_ALIGN_CENTER, 1, Color(0, 0, 0))\n"] + LabelEnd)
  ]

  const LabelIncludes: seq<string> := [
    "AddCSLuaFile()\n",
    "include(\"shared.lua\")\n",
    "\n",
    "ENT.RenderGroup = RENDERGROUP_BOTH\n",
    "\n",
    "function ENT:Draw()\n",
    "    self:DrawModel()\n",
    "end\n",
    "\n"
  ]

  /** The label is drawn only near the player; the first font is set. */
  const LabelDrawStart: seq<string> := [
    "function ENT:DrawTranslucent()\n",
    "    if self:GetPos():DistToSqr( LocalPlayer():GetPos() ) < 10000 then\n",
    "        surface.SetFont(\""
  ]

  /** The text is measured. */
  const LabelMeasure: seq<string> := [
    "        local textw, texth = surface.GetTextSize(\""
  ]

  /** The box around the text, padded by 5 and 2 on each side. */
  const LabelBox: seq<string> := [
    "        local w = 5 + textw + 5\n",
    "        local h = 2 + texth + 2\n",
    "        local x, y = -w / 2, -h / 2\n",
    "\n"
  ]

  /** A 2D camera facing the player, 50 units above the entity. */
  const LabelCamera: seq<string> := [
    "        local ang = LocalPlayer():EyeAngles()\n",
    "        ang:RotateAroundAxis(ang:Forward(), 90)\n",
    "        ang:RotateAroundAxis(ang:Right(), 90)\n",
    "        local pos = self:GetPos() + (self:GetAngles():Up() * 50)\n",
    "        cam.Start3D2D(pos, Angle(0, ang.y, 90), 0.25)\n",
    "            surface.SetFont(\""
  ]

  /** A translucent black backdrop, then the outlined text. */
  const LabelBackdrop: seq<string> := [
    "            surface.SetDrawColor(Color(0, 0, 0, 200))\n",
    "            surface.DrawRect(x, y, w, h)\n",
    "            draw.SimpleTextOutlined(\""
  ]

  const LabelEnd: seq<string> := [
    "        cam.End3D2D()\n",
    "    end\n",
    "end"
  ]

  /** createClInitContent without show3DName: no substitution. */
  const PlainClInit: string := Join(PlainClInitLines)

  const PlainClInitLines: seq<string> := [
    "AddCSLuaFile()\n",
    "include(\"shared.lua\")\n",
    "\t\n",
    "function ENT:Draw()\n",
    "    self:DrawModel()\n",
    "end"
  ]

  /** createInitContent for "Prop": the model path is the one substitution. */
  const PropInit: seq<string> := [
    Join(PropIncludes + InitializeStart),
    Join(["\")\n"] + PropPhysics + PropAcceptInput)
  ]

  /** The Prop variant sends both client files. */
  const PropIncludes: seq<string> := [
    "AddCSLuaFile(\"cl_init.lua\")\n",
    "AddCSLuaFile(\"shared.lua\")\n",
    "include(\"shared.lua\")\n",
    "\n"
  ]

  /** Initialize up to the model path, in both variants. */
  const InitializeStart: seq<string> := [
    "function ENT:Initialize()\n",
    "    self:SetUseType(SIMPLE_USE)\n",
    "    self:SetModel(\""
  ]

  /** Dynamic physics, then a drop to the floor. */
  const PropPhysics: seq<string> := [
    "    self:PhysicsInit(SOLID_VPHYSICS)\n",
    "    self:SetSolid(SOLID_VPHYSICS)\n",
    "\n",
    "    self:DropToFloor()\n",
    "end\n",
    "\n"
  ]

  /** The interaction stub of the Prop variant. */
  const PropAcceptInput: seq<string> := [
    "function ENT:AcceptInput(",
    "Name, Activator, ply)\n",
    "    if Name == \"Use\" and ",
    "ply:IsPlayer() then\n",
    "        // Run your ",
    "interaction code here\n",
    "    end\n",
    "end"
  ]

  /** createInitContent for any other type: the model path is the one
      substitution. */
  const EntityInit: seq<string> := [
    Join(EntityIncludes + InitializeStart),
    Join(["\")\n"] + EntityPhysics + SetCustomModelFunction + EntityAcceptInput)
  ]

  const EntityIncludes: seq<string> := [
    "include(\"shared.lua\")\n",
    "\n"
  ]

  /** Static physics, the fixed idle sequence, then a drop to the floor. */
  const EntityPhysics: seq<string> :=
    ["    self:PhysicsInitStatic(SOLID_BBOX)\n", "\n"] + IdleSequence +
    ["\n", "    self:DropToFloor()\n", "end\n", "\n"]

  /** The helper that re-applies a custom model at runtime. */
  const SetCustomModelFunction: seq<string> :=
    ["function ENT:SetCustomModel(model)\n", "    self:SetModel(model)\n", "\n"] + IdleSequence +
    ["end\n", "\n"]

  /** Looks up and plays the "idle_all_01" sequence. */
  const IdleSequence: seq<string> := [
    "    local sequenceId, duration = ",
    "self:LookupSequence(\"idle_all_01\")\n",
    "    self:SetSequence(sequenceId)\n"
  ]

  /** The interaction stub of the static variant. */
  const EntityAcceptInput: seq<string> := [
    "function ENT:AcceptInput(",
    "Name, Activator, ply)\n",
    "    if Name == \"Use\" and ",
    "ply:IsPlayer() then\n",
    "        // Run your code here\n",
    "    end\n",
    "end"
  ]

  /** createSharedContent for "Prop": print name, then category. */
  const PropShared: seq<string> := [
    Join(PropSharedHead + PrintNameKey),
    Join(["\"\n"] + CategoryKey),
    Join(["\"\n", "\n"] + SpawnFlags)
  ]

  const PropSharedHead: seq<string> := [
    "ENT.Type = \"anim\"\n",
    "ENT.Base = \"base_gmodentity\"\n",
    "\n"
  ]

  const PrintNameKey: seq<string> := ["ENT.PrintName = \""]

  const CategoryKey: seq<string> := ["ENT.Category = \""]

  /** Spawnable by everyone and by admins, in both variants. */
  const SpawnFlags: seq<string> := [
    "ENT.Spawnable = true\n",
    "ENT.AdminSpawnable = true"
  ]

  /** createSharedContent for any other type: print name, then category. */
  const EntityShared: seq<string> := [
    Join(EntitySharedHead + PrintNameKey),
    Join(["\"\n"] + CategoryKey),
    Join(["\"\n", "    \n"] + SpawnFlags)
  ]

  const EntitySharedHead: seq<string> := [
    "AddCSLuaFile()\n",
    "    \n",
    "ENT.Type = \"anim\"\n",
    "ENT.Base = \"base_anim\"\n",
    "    \n"
  ]

  /** The values spliced into the label variant of cl_init.lua, in order. */
  function LabelValues(s: EntitySettings): seq<string>
  {
    var font, text := s.display3DNameFont, Render(s.display3DNameText);
    [font, text, font, text, font]
  }

  /** createClInitContent: the client script, with the floating 3D-name
      label when show3DName is set. */
  function ClInitContent(s: EntitySettings): string
  {
    if s.show3DName then Fill(LabelClInit, LabelValues(s)) else PlainClInit
  }

  /** The fixed strings of the server script chosen by entityType. */
  function InitStrings(entityType: string): seq<string>
  {
    if entityType == "Prop" then PropInit else EntityInit
  }

  /** createInitContent: the server script; only the exact type "Prop" gets
      the physics-driven variant. */
  function InitContent(s: EntitySettings): string
  {
    Fill(InitStrings(s.entityType), [s.modelPath])
  }

  /** The fixed strings of the shared script chosen by entityType. */
  function SharedStrings(entityType: string): seq<string>
  {
    if entityType == "Prop" then PropShared else EntityShared
  }

  /** createSharedContent: the declarations shared by client and server. */
  function SharedContent(s: EntitySettings): string
  {
    Fill(SharedStrings(s.entityType), [s.printName, s.category])
  }

  /** Every substitution of every template sits between double quotes. */
  lemma LabelClInitQuoted()
    ensures Quoted(LabelClInit)
  {
    var t := LabelClInit;
    assert t[0][|t[0]| - 1] == '"' by { JoinEnds(LabelIncludes + LabelDrawStart); }
    assert t[1][0] == '"' && t[1][|t[1]| - 1] == '"' by { JoinEnds(["\")\n"] + LabelMeasure); }
    assert t[2][0] == '"' && t[2][|t[2]| - 1] == '"' by { JoinEnds(["\")\n"] + LabelBox + LabelCamera); }
    assert t[3][0] == '"' && t[3][|t[3]| - 1] == '"' by { JoinEnds(["\")\n"] + LabelBackdrop); }
    assert t[5][0] == '"' by {
      JoinEnds(["\", 0, 0, Color(255, 255, 255), ", "TEXT_ALIGN_CENTER, TEXT_ALIGN_CENTER, 1, Color(0, 0, 0))\n"] + LabelEnd);
    }
  }

  lemma InitQuoted()
    ensures Quoted(PropInit) && Quoted(EntityInit)
  {
    JoinEnds(PropIncludes + InitializeStart);
    JoinEnds(["\")\n"] + PropPhysics + PropAcceptInput);
    JoinEnds(EntityIncludes + InitializeStart);
    JoinEnds(["\")\n"] + EntityPhysics + SetCustomModelFunction + EntityAcceptInput);
  }

  lemma SharedQuoted()
    ensures Quoted(PropShared) && Quoted(EntityShared)
  {
    JoinEnds(PropSharedHead + PrintNameKey);
    JoinEnds(["\"\n"] + CategoryKey);
    JoinEnds(["\"\n", "\n"] + SpawnFlags);
    JoinEnds(EntitySharedHead + PrintNameKey);
    JoinEnds(["\"\n", "    \n"] + SpawnFlags);
  }

  /** Characters some fixed strings lack, checked line by line. */
  lemma PlainClInitLinesLackOne()
    ensures forall l :: l in PlainClInitLines ==> '1' !in l
  {
  }

  lemma PlainClInitLinesLackThree()
    ensures forall l :: l in PlainClInitLines ==> '3' !in l
  {
  }

  lemma PlainClInitLacksDigits()
    ensures '1' !in PlainClInit && '3' !in PlainClInit
  {
    PlainClInitLinesLackOne();
    PlainClInitLinesLackThree();
    JoinLacks('1', PlainClInitLines);
    JoinLacks('3', PlainClInitLines);
  }

  lemma PropIncludesLackQ()
    ensures forall l :: l in PropIncludes ==> 'q' !in l
  {
  }

  lemma InitializeStartLacksQ()
    ensures forall l :: l in InitializeStart ==> 'q' !in l
  {
  }

  lemma InitializeStartLacksV()
    ensures forall l :: l in InitializeStart ==> 'V' !in l
  {
  }

  lemma PropPhysicsLacksQ()
    ensures forall l :: l in PropPhysics ==> 'q' !in l
  {
  }

  lemma PropAcceptInputLacksQ()
    ensures forall l :: l in PropAcceptInput ==> 'q' !in l
  {
  }

  lemma PropInitLacksQ()
    ensures 'q' !in PropInit[0] && 'q' !in PropInit[1]
  {
    PropIncludesLackQ();
    InitializeStartLacksQ();
    PropPhysicsLacksQ();
    PropAcceptInputLacksQ();
    JoinLacks('q', PropIncludes + InitializeStart);
    JoinLacks('q', ["\")\n"] + PropPhysics + PropAcceptInput);
  }

  lemma IdleSequenceLacksV()
    ensures forall l :: l in IdleSequence ==> 'V' !in l
  {
  }

  lemma EntityPhysicsLacksV()
    ensures forall l :: l in EntityPhysics ==> 'V' !in l
  {
    IdleSequenceLacksV();
  }

  lemma SetCustomModelLacksV()
    ensures forall l :: l in SetCustomModelFunction ==> 'V' !in l
  {
    IdleSequenceLacksV();
  }

  lemma EntityAcceptInputLacksV()
    ensures forall l :: l in EntityAcceptInput ==> 'V' !in l
  {
  }

  lemma EntityInitLacksV()
    ensures 'V' !in EntityInit[0] && 'V' !in EntityInit[1]
  {
    InitializeStartLacksV();
    EntityPhysicsLacksV();
    SetCustomModelLacksV();
    EntityAcceptInputLacksV();
    JoinLacks('V', EntityIncludes + InitializeStart);
    JoinLacks('V', ["\")\n"] + EntityPhysics + SetCustomModelFunction + EntityAcceptInput);
  }

  /** With show3DName set, cl_init.lua draws the label: the font and the text
      are spliced in verbatim, each at more than one place, the font into
      surface.SetFont and the text into surface.GetTextSize. */
  lemma ClInitWithLabel(s: EntitySettings)
    requires s.show3DName
    ensures var r, font, text := ClInitContent(s), s.display3DNameFont, Render(s.display3DNameText);
      && OccursTwice(font, r)
      && OccursTwice(text, r)
      && Occurs("        surface.SetFont(\"" + font + "\")\n", r)
      && Occurs("        local textw, texth = surface.GetTextSize(\"" + text + "\")\n", r)
  {
    var v := LabelValues(s);
    FillHoldsValueTwice(LabelClInit, v, 0, 2);
    FillHoldsValueTwice(LabelClInit, v, 1, 3);
    FillHoldsValueLine(LabelClInit, v, 0, LabelIncludes + LabelDrawStart, ["\")\n"] + LabelMeasure);
    FillHoldsValueLine(LabelClInit, v, 1, ["\")\n"] + LabelMeasure, ["\")\n"] + LabelBox + LabelCamera);
  }

  /** The label is drawn only within the squared distance 10000, in a box
      padded by 5 and 2, on a 2D camera. */
  lemma ClInitLabelPlacement(s: EntitySettings)
    requires s.show3DName
    ensures var r := ClInitContent(s);
      && Occurs("    if self:GetPos():DistToSqr( LocalPlayer():GetPos() ) < 10000 then\n", r)
      && Occurs("        local w = 5 + textw + 5\n", r)
      && Occurs("        local h = 2 + texth + 2\n", r)
      && Occurs("        cam.Start3D2D(pos, Angle(0, ang.y, 90), 0.25)\n", r)
  {
    var v := LabelValues(s);
    FillHoldsLine(LabelClInit, v, 0, LabelIncludes + LabelDrawStart, 10);
    FillHoldsLine(LabelClInit, v, 2, ["\")\n"] + LabelBox + LabelCamera, 1);
    FillHoldsLine(LabelClInit, v, 2, ["\")\n"] + LabelBox + LabelCamera, 2);
    FillHoldsLine(LabelClInit, v, 2, ["\")\n"] + LabelBox + LabelCamera, 9);
  }

  /** Without show3DName, cl_init.lua is one fixed text, the same whatever
      the other settings are, with no label drawing and no distance check. */
  lemma ClInitWithoutLabel(s: EntitySettings, s': EntitySettings)
    requires !s.show3DName && !s'.show3DName
    ensures ClInitContent(s) == ClInitContent(s')
    ensures !Occurs("cam.Start3D2D", ClInitContent(s)) && !Occurs("< 10000", ClInitContent(s))
  {
    PlainClInitLacksDigits();
    OccursHasChar("cam.Start3D2D", PlainClInit, 9);
    OccursHasChar("< 10000", PlainClInit, 2);
  }

  /** The Prop server script sends both client files, splices the model path
      into SetModel, uses dynamic physics and drops to the floor. */
  lemma InitForProp(s: EntitySettings)
    requires s.entityType == "Prop"
    ensures var r := InitContent(s);
      && StartsWith("AddCSLuaFile(\"cl_init.lua\")\n", r)
      && Occurs("    self:SetModel(\"" + s.modelPath + "\")\n", r)
      && Occurs("    self:PhysicsInit(SOLID_VPHYSICS)\n", r)
      && Occurs("    self:DropToFloor()\n", r)
  {
    var r, v := InitContent(s), [s.modelPath];
    var head, tail := PropIncludes + InitializeStart, ["\")\n"] + PropPhysics + PropAcceptInput;
    FillStartsWith(PropInit, v);
    JoinStartsWith(head);
    StartsWithWithin(head[0], PropInit[0], r);
    FillHoldsValueLine(PropInit, v, 0, head, tail);
    FillHoldsLine(PropInit, v, 1, tail, 1);
    FillHoldsLine(PropInit, v, 1, tail, 4);
  }

  /** The Prop server script looks up no animation sequence unless the model
      path itself says so. */
  lemma PropInitPlaysNoSequence(s: EntitySettings)
    requires s.entityType == "Prop"
    ensures Occurs("LookupSequence", InitContent(s)) <==> Occurs("LookupSequence", s.modelPath)
  {
    InitQuoted();
    PropInitLacksQ();
    FillHoldsOnlyValues("LookupSequence", PropInit, [s.modelPath], 8);
  }

  /** Any other type gets the static server script: it sends no client file,
      splices the model path into SetModel, uses static physics, plays the
      fixed "idle_all_01" sequence and defines SetCustomModel. */
  lemma InitForOtherTypes(s: EntitySettings)
    requires s.entityType != "Prop"
    ensures var r := InitContent(s);
      && StartsWith("include(\"shared.lua\")\n", r)
      && Occurs("    self:SetModel(\"" + s.modelPath + "\")\n", r)
      && Occurs("    self:PhysicsInitStatic(SOLID_BBOX)\n", r)
      && Occurs("self:LookupSequence(\"idle_all_01\")\n", r)
      && Occurs("function ENT:SetCustomModel(model)\n", r)
  {
    var r, v := InitContent(s), [s.modelPath];
    var head := EntityIncludes + InitializeStart;
    var tail := ["\")\n"] + EntityPhysics + SetCustomModelFunction + EntityAcceptInput;
    FillStartsWith(EntityInit, v);
    JoinStartsWith(head);
    StartsWithWithin(head[0], EntityInit[0], r);
    FillHoldsValueLine(EntityInit, v, 0, head, tail);
    FillHoldsLine(EntityInit, v, 1, tail, 1);
    FillHoldsLine(EntityInit, v, 1, tail, 4);
    FillHoldsLine(EntityInit, v, 1, tail, 10);
  }

  /** The static server script has no dynamic physics call unless the model
      path itself brings one. */
  lemma OtherInitHasNoDynamicPhysics(s: EntitySettings)
    requires s.entityType != "Prop"
    ensures Occurs("PhysicsInit(SOLID_VPHYSICS)", InitContent(s)) <==> Occurs("PhysicsInit(SOLID_VPHYSICS)", s.modelPath)
  {
    InitQuoted();
    EntityInitLacksV();
    FillHoldsOnlyValues("PhysicsInit(SOLID_VPHYSICS)", EntityInit, [s.modelPath], 18);
  }

  /** Hence init.lua tells whether the type was exactly "Prop". */
  lemma InitRevealsProp(s: EntitySettings, s': EntitySettings)
    requires InitContent(s) == InitContent(s')
    ensures s.entityType == "Prop" <==> s'.entityType == "Prop"
  {
    var r := InitContent(s);
    if s.entityType == "Prop" {
      InitForProp(s);
      assert r[0] == 'A';
    } else {
      InitForOtherTypes(s);
      assert r[0] == 'i';
    }
    if s'.entityType == "Prop" {
      InitForProp(s');
      assert r[0] == 'A';
    } else {
      InitForOtherTypes(s');
      assert r[0] == 'i';
    }
  }

  /** Both shared scripts declare the print name and the category verbatim,
      each on its own line, and make the entity spawnable by everyone and by
      admins. */
  lemma SharedDeclarations(s: EntitySettings)
    ensures var r := SharedContent(s);
      && Occurs("ENT.PrintName = \"" + s.printName + "\"\n", r)
      && Occurs("ENT.Category = \"" + s.category + "\"\n", r)
      && Occurs("ENT.Spawnable = true\n", r)
      && Occurs("ENT.AdminSpawnable = true", r)
  {
    var v, strings := [s.printName, s.category], SharedStrings(s.entityType);
    var head := if s.entityType == "Prop" then PropSharedHead + PrintNameKey else EntitySharedHead + PrintNameKey;
    var gap := if s.entityType == "Prop" then ["\"\n", "\n"] else ["\"\n", "    \n"];
    FillHoldsValueLine(strings, v, 0, head, ["\"\n"] + CategoryKey);
    FillHoldsValueLine(strings, v, 1, ["\"\n"] + CategoryKey, gap + SpawnFlags);
    FillHoldsLine(strings, v, 2, gap + SpawnFlags, 2);
    FillHoldsLine(strings, v, 2, gap + SpawnFlags, 3);
  }

  /** The Prop shared script derives from base_gmodentity; any other type's
      calls AddCSLuaFile() first and derives from base_anim. */
  lemma SharedBase(s: EntitySettings)
    ensures var r := SharedContent(s);
      && (s.entityType == "Prop" ==>
            StartsWith("ENT.Type = \"anim\"\n", r) && Occurs("ENT.Base = \"base_gmodentity\"\n", r))
      && (s.entityType != "Prop" ==>
            StartsWith("AddCSLuaFile()\n", r) && Occurs("ENT.Base = \"base_anim\"\n", r))
  {
    var r, v, strings := SharedContent(s), [s.printName, s.category], SharedStrings(s.entityType);
    var head := if s.entityType == "Prop" then PropSharedHead + PrintNameKey else EntitySharedHead + PrintNameKey;
    FillStartsWith(strings, v);
    JoinStartsWith(head);
    StartsWithWithin(head[0], strings[0], r);
    if s.entityType == "Prop" {
      FillHoldsLine(strings, v, 0, head, 1);
    } else {
      FillHoldsLine(strings, v, 0, head, 3);
    }
  }

  /** Each generator reads only its own fields: cl_init.lua the 3D-name
      settings, init.lua the type and the model path, shared.lua the type, the
      print name and the category. */
  lemma GeneratorsReadOnlyTheirFields(s: EntitySettings, s': EntitySettings)
    ensures s.show3DName == s'.show3DName && s.display3DNameFont == s'.display3DNameFont
            && s.display3DNameText == s'.display3DNameText
            ==> ClInitContent(s) == ClInitContent(s')
    ensures s.entityType == s'.entityType && s.modelPath == s'.modelPath
            ==> InitContent(s) == InitContent(s')
    ensures s.entityType == s'.entityType && s.printName == s'.printName && s.category == s'.category
            ==> SharedContent(s) == SharedContent(s')
  {
  }

  /** Values without double quotes can be read back from each generated text:
      the splicing loses nothing. */
  lemma ClInitReadsBack(s: EntitySettings)
    requires s.show3DName && '"' !in s.display3DNameFont && '"' !in Render(s.display3DNameText)
    ensures Unfill(LabelClInit, ClInitContent(s)) == Some(LabelValues(s))
  {
    LabelClInitQuoted();
    UnfillFill(LabelClInit, LabelValues(s));
  }

  lemma InitReadsBack(s: EntitySettings)
    requires '"' !in s.modelPath
    ensures Unfill(InitStrings(s.entityType), InitContent(s)) == Some([s.modelPath])
  {
    InitQuoted();
    UnfillFill(InitStrings(s.entityType), [s.modelPath]);
  }

  lemma SharedReadsBack(s: EntitySettings)
    requires '"' !in s.printName && '"' !in s.category
    ensures Unfill(SharedStrings(s.entityType), SharedContent(s)) == Some([s.printName, s.category])
  {
    SharedQuoted();
    UnfillFill(SharedStrings(s.entityType), [s.printName, s.category]);
  }

  /** Hence two quote-free settings of the same type with the same shared.lua
      have the same print name and category. */
  lemma SharedDeterminesNames(s: EntitySettings, s': EntitySettings)
    requires s.entityType == s'.entityType && SharedContent(s) == SharedContent(s')
    requires '"' !in s.printName && '"' !in s.category && '"' !in s'.printName && '"' !in s'.category
    ensures s.printName == s'.printName && s.category == s'.category
  {
    SharedReadsBack(s);
    SharedReadsBack(s');
  }

  /** The fixed string between the print name and the category. */
  lemma CategoryGap()
    ensures PropShared[1] == EntityShared[1] == "\"\nENT.Category = \""
  {
    var gap := ["\"\n"] + CategoryKey;
    assert gap[1..] == CategoryKey;
    assert Join(gap) == "\"\n" + Join(CategoryKey);
  }

  /** Without escaping, a quote in a value can forge the template's own text:
      two different print names give the same shared.lua. */
  lemma SharedUnescaped()
    ensures var gap := "\"\nENT.Category = \"";
      var s := EntitySettings("Crate", "A" + gap + "B", "C", "Prop", false, None, "DermaLarge", "");
      var s' := EntitySettings("Crate", "A", "B" + gap + "C", "Prop", false, None, "DermaLarge", "");
      s.printName != s'.printName && SharedContent(s) == SharedContent(s')
  {
    CategoryGap();
    var p := PropShared;
    var g := p[1];
    FillPair(p, "A" + g + "B", "C");
    FillPair(p, "A", "B" + g + "C");
    assert p[0] + ("A" + g + "B") + g + "C" + p[2] == p[0] + "A" + g + ("B" + g + "C") + p[2];
    assert |"A" + g + "B"| != |"A"|;
  }
}
