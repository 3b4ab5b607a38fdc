/**
 * Zodiac lookup of the Zhuki variant (zhuki/utils/ZodiakUtils.kt): a sign
 * name from a day of month and a 0-based month, as `Calendar.MONTH` gives it,
 * and the drawable resource name of a sign.
 */
module Zodiac {

  const Unknown: string := "Неизвестно"
  const UnknownDrawable: string := "unknown"

  /** The twelve signs in calendar order, starting with the one that begins in January. */
  const Signs: seq<string> := ["Водолей", "Рыбы", "Овен", "Телец", "Близнецы", "Рак",
                               "Лев", "Дева", "Весы", "Скорпион", "Стрелец", "Козерог"]

  /** First day of month `m` (0-based) that belongs to the sign Signs[m]. */
  const Cusps: seq<int> := [20, 19, 21, 20, 21, 21, 23, 23, 23, 23, 22, 22]

  /** The drawable names, in the order of Signs. */
  const Drawables: seq<string> := ["aquarius", "pisces", "aries", "taurus", "gemini", "cancer",
                                   "leo", "virgo", "libra", "scorpio", "sagittarius", "capricorn"]

  /**
   * getZodiacSign: month m has a cusp day; from it on the sign is Signs[m],
   * before it the sign of the previous month, Signs[(m + 11) % 12].
   */
  function GetZodiacSign(day: int, month: int): (s: string)
    ensures 0 <= month < 12 ==> s == (if day >= Cusps[month] then Signs[month] else Signs[(month + 11) % 12])
    ensures 0 <= month < 12 <==> s in Signs
    ensures !(0 <= month < 12) ==> s == Unknown
  {
    match month
    case 0 => if day >= 20 then "Водолей" else "Козерог"
    case 1 => if day >= 19 then "Рыбы" else "Водолей"
    case 2 => if day >= 21 then "Овен" else "Рыбы"
    case 3 => if day >= 20 then "Телец" else "Овен"
    case 4 => if day >= 21 then "Близнецы" else "Телец"
    case 5 => if day >= 21 then "Рак" else "Близнецы"
    case 6 => if day >= 23 then "Лев" else "Рак"
    case 7 => if day >= 23 then "Дева" else "Лев"
    case 8 => if day >= 23 then "Весы" else "Дева"
    case 9 => if day >= 23 then "Скорпион" else "Весы"
    case 10 => if day >= 22 then "Стрелец" else "Скорпион"
    case 11 => if day >= 22 then "Козерог" else "Стрелец"
    case _ => "Неизвестно"
  }

  /** getZodiacDrawableResource: the i-th sign maps to the i-th drawable, anything else to "unknown". */
  function GetZodiacDrawableResource(sign: string): (r: string)
    ensures forall i :: 0 <= i < |Signs| && sign == Signs[i] ==> r == Drawables[i]
    ensures sign !in Signs ==> r == UnknownDrawable
  {
    match sign
    case "Овен" => "aries"
    case "Телец" => "taurus"
    case "Близнецы" => "gemini"
    case "Рак" => "cancer"
    case "Лев" => "leo"
    case "Дева" => "virgo"
    case "Весы" => "libra"
    case "Скорпион" => "scorpio"
    case "Стрелец" => "sagittarius"
    case "Козерог" => "capricorn"
    case "Водолей" => "aquarius"
    case "Рыбы" => "pisces"
    case _ => "unknown"
  }

  /** Each sign fills the end of one month and the start of the next: no sign is skipped at a month boundary. */
  lemma SignsContinueAcrossMonths(m: int)
    requires 0 <= m < 12
    ensures GetZodiacSign(31, m) == GetZodiacSign(1, (m + 1) % 12)
  {
  }

  /** Every sign has its own picture, which is not "unknown". */
  lemma SignHasPicture(i: int)
    requires 0 <= i < 12
    ensures GetZodiacDrawableResource(Signs[i]) == Drawables[i] != UnknownDrawable
  {
  }

  /** Twelve signs, twelve different drawables, none of them "unknown". */
  lemma DrawablesDistinct(i: int, j: int)
    requires 0 <= i < 12 && 0 <= j < 12
    ensures GetZodiacDrawableResource(Signs[i]) != UnknownDrawable
    ensures i != j ==> GetZodiacDrawableResource(Signs[i]) != GetZodiacDrawableResource(Signs[j])
  {
    SignHasPicture(i);
    SignHasPicture(j);
  }

  /** A real month never leads to the "unknown" picture. */
  lemma KnownMonthHasPicture(day: int, month: int)
    requires 0 <= month < 12
    ensures GetZodiacDrawableResource(GetZodiacSign(day, month)) != UnknownDrawable
  {
    var s := GetZodiacSign(day, month);
    var i := if day >= Cusps[month] then month else (month + 11) % 12;
    assert s == Signs[i];
    SignHasPicture(i);
  }
}
