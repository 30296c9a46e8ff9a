/** The level classifiers of the level badge and the text it shows. */
module LevelBadge {
  import opened Text

  datatype Variant = Primary | Secondary | Accent

  /** `getVariant`: primary below level 5, secondary below 10, accent from 10 on. */
  function GetVariant(level: int): (v: Variant)
    ensures v == Primary <==> level < 5
    ensures v == Secondary <==> 5 <= level < 10
    ensures v == Accent <==> 10 <= level
  {
    if level < 5 then Primary
    else if level < 10 then Secondary
    else Accent
  }

  /** `getLabel`: the title shown next to the level number. */
  function GetLabel(level: int): (title: string)
    ensures level < 3 <==> title == "Beginner"
    ensures 3 <= level < 5 <==> title == "Novice"
    ensures 5 <= level < 8 <==> title == "Intermediate"
    ensures 8 <= level < 12 <==> title == "Advanced"
    ensures 12 <= level < 15 <==> title == "Expert"
    ensures 15 <= level <==> title == "Master"
  {
    if level < 3 then "Beginner"
    else if level < 5 then "Novice"
    else if level < 8 then "Intermediate"
    else if level < 12 then "Advanced"
    else if level < 15 then "Expert"
    else "Master"
  }

  /** The position of a label in the progression Beginner .. Master. */
  function LabelRank(title: string): nat
  {
    if title == "Beginner" then 0
    else if title == "Novice" then 1
    else if title == "Intermediate" then 2
    else if title == "Advanced" then 3
    else if title == "Expert" then 4
    else 5
  }

  function VariantRank(v: Variant): nat
  {
    match v
    case Primary => 0
    case Secondary => 1
    case Accent => 2
  }

  /** A higher level never shows a lower title or a lower colour. */
  lemma ClassifiersMonotone(a: int, b: int)
    requires a <= b
    ensures LabelRank(GetLabel(a)) <= LabelRank(GetLabel(b))
    ensures VariantRank(GetVariant(a)) <= VariantRank(GetVariant(b))
  {
  }

  /** What the badge renders: its colour and its text. */
  datatype BadgeContent = BadgeContent(variant: Variant, text: string)

  /** The rendered badge: wrapped in an animation or in a plain container. */
  datatype BadgeView = Animated(content: BadgeContent) | Static(content: BadgeContent)

  /** The component's two branches. */
  function Render(level: int, animate: bool): (view: BadgeView)
    ensures view.Animated? <==> animate
    ensures view.content.variant == GetVariant(level)
    ensures view.content.text == "Level " + IntToString(level) + " • " + GetLabel(level)
  {
    var content := BadgeContent(GetVariant(level), "Level " + IntToString(level) + " • " + GetLabel(level));
    if animate then Animated(content) else Static(content)
  }

  /** The animated and the static badge show the same colour and text. */
  lemma RenderSameInBothBranches(level: int)
    ensures Render(level, true).content == Render(level, false).content
  {
  }
}
