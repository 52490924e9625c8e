/** The `LottoBall` component (components/LottoBall.tsx): the classes and label of one ball. */
module LottoBall {
  import opened Types

  datatype Size = Sm | Md | Lg
  datatype Status = Default | Excluded | Dimmed

  /** The component's props; `None` is a prop left unset. `hasOnClick` says whether `onClick` was given. */
  datatype Props = Props(number: int, size: Option<Size>, status: Option<Status>, hasOnClick: bool)

  /** What a ball shows: either the text "X" or the number itself. */
  datatype Label = Text(text: string) | Number(value: int)

  /** The rendered ball: its class strings in the order of the template, and its label. */
  datatype Ball = Ball(classes: seq<string>, shown: Label)

  const ExcludedColors := "bg-gray-200 text-gray-400 border-gray-300 opacity-50 cursor-not-allowed"
  const DimmedColors := "bg-slate-100 text-slate-300 border-slate-200"
  const YellowColors := "bg-yellow-400 text-white border-yellow-500 shadow-yellow-200"
  const BlueColors := "bg-blue-500 text-white border-blue-600 shadow-blue-200"
  const RedColors := "bg-red-500 text-white border-red-600 shadow-red-200"
  const SlateColors := "bg-slate-500 text-white border-slate-600 shadow-slate-200"
  const GreenColors := "bg-green-500 text-white border-green-600 shadow-green-200"

  const BaseClasses := "rounded-full flex items-center justify-center font-bold transition-all duration-200 transform"
  const ClickableClasses := "cursor-pointer hover:scale-110 active:scale-95"
  const ExcludedEffect := "scale-90 grayscale"
  const RaisedEffect := "shadow-lg"

  /** `getColors`: the first matching rule wins. */
  function GetColors(status: Status, num: int): string
  {
    if status == Excluded then ExcludedColors
    else if status == Dimmed then DimmedColors
    else if num <= 10 then YellowColors
    else if num <= 20 then BlueColors
    else if num <= 30 then RedColors
    else if num <= 40 then SlateColors
    else GreenColors
  }

  /** `sizeClasses`. */
  function SizeClasses(size: Size): string
  {
    match size
    case Sm => "w-8 h-8 text-xs border-b-2"
    case Md => "w-10 h-10 text-sm border-b-4"
    case Lg => "w-14 h-14 text-lg font-bold border-b-4"
  }

  /** The colour bands of a ball under the default status, each an explicit range. */
  datatype Band = YellowBand | BlueBand | RedBand | SlateBand | GreenBand

  predicate InBand(b: Band, num: int)
  {
    match b
    case YellowBand => num <= 10
    case BlueBand => 11 <= num <= 20
    case RedBand => 21 <= num <= 30
    case SlateBand => 31 <= num <= 40
    case GreenBand => 41 <= num
  }

  function BandColors(b: Band): string
  {
    match b
    case YellowBand => YellowColors
    case BlueBand => BlueColors
    case RedBand => RedColors
    case SlateBand => SlateColors
    case GreenBand => GreenColors
  }

  /** Every integer lies in exactly one band. */
  lemma BandsPartition(num: int)
    ensures exists b :: InBand(b, num)
    ensures forall b1, b2 :: InBand(b1, num) && InBand(b2, num) ==> b1 == b2
  {
    if num <= 10 { assert InBand(YellowBand, num); }
    else if num <= 20 { assert InBand(BlueBand, num); }
    else if num <= 30 { assert InBand(RedBand, num); }
    else if num <= 40 { assert InBand(SlateBand, num); }
    else { assert InBand(GreenBand, num); }
  }

  /** Under the default status the first-match chain gives a band's colours exactly when the number is in that band. */
  lemma DefaultColorsFollowBands(num: int, b: Band)
    ensures GetColors(Default, num) == BandColors(b) <==> InBand(b, num)
  {
  }

  /** An excluded ball is grey and a dimmed ball is faded, whatever its number. */
  lemma StatusOverridesNumber(num: int)
    ensures GetColors(Excluded, num) == ExcludedColors
    ensures GetColors(Dimmed, num) == DimmedColors
  {
  }

  /** The component: unset `size` and `status` take their defaults `md` and `default`. */
  function Render(p: Props): Ball
  {
    var size := match p.size case Some(s) => s case None => Md;
    var status := match p.status case Some(s) => s case None => Default;
    Ball(
      [ SizeClasses(size),
        GetColors(status, p.number),
        BaseClasses,
        if p.hasOnClick then ClickableClasses else "",
        if status == Excluded then ExcludedEffect else RaisedEffect ],
      if status == Excluded then Text("X") else Number(p.number))
  }

  /** Leaving `size` and `status` unset renders the same ball as passing `md` and `default`. */
  lemma RenderDefaults(number: int, hasOnClick: bool)
    ensures Render(Props(number, None, None, hasOnClick)) == Render(Props(number, Some(Md), Some(Default), hasOnClick))
  {
  }

  /**
   * The label is "X" exactly when the ball is excluded, and otherwise the number;
   * an excluded ball is shrunk and greyed, any other is raised; hover and cursor
   * classes appear exactly when a click handler is given.
   */
  lemma RenderSpec(p: Props)
    ensures var excluded := p.status == Some(Excluded);
            (Render(p).shown == Text("X") <==> excluded) &&
            (!excluded ==> Render(p).shown == Number(p.number)) &&
            (ExcludedEffect in Render(p).classes <==> excluded) &&
            (RaisedEffect in Render(p).classes <==> !excluded) &&
            (ClickableClasses in Render(p).classes <==> p.hasOnClick)
  {
  }
}
