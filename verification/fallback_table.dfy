/** The static table `LOCAL_FALLBACK` (countries.js:54-311), the tier of
    last resort. Its 256 entries appear here in the source's order, cut into
    runs of 8 consecutive entries, grouped into parts of 8 runs, so that each
    proof about the table stays small; `LocalFallback` is the concatenation
    of all of them. Some entries carry an empty name on purpose (AH, AK, EU,
    IC, NY, XK). */
module FallbackTable {
  import opened Countries

  const Run0: seq<Country> := [
    Country("Andorra", "AD"),
    Country("United Arab Emirates", "AE"),
    Country("Afghanistan", "AF"),
    Country("Antigua and Barbuda", "AG"),
    Country("Anguilla", "AI"),
    Country("", "AH"),
    Country("", "AK"),
    Country("Albania", "AL")
  ]

  const Run1: seq<Country> := [
    Country("Armenia", "AM"),
    Country("Netherlands Antilles", "AN"),
    Country("Angola", "AO"),
    Country("Antarctica", "AQ"),
    Country("Argentina", "AR"),
    Country("American Samoa", "AS"),
    Country("Austria", "AT"),
    Country("Australia", "AU")
  ]

  const Run2: seq<Country> := [
    Country("Aruba", "AW"),
    Country("\U{00C5}land Islands", "AX"),
    Country("Azerbaijan", "AZ"),
    Country("Bosnia and Herzegovina", "BA"),
    Country("Barbados", "BB"),
    Country("Bangladesh", "BD"),
    Country("Belgium", "BE"),
    Country("Burkina Faso", "BF")
  ]

  const Run3: seq<Country> := [
    Country("Bulgaria", "BG"),
    Country("Bahrain", "BH"),
    Country("Burundi", "BI"),
    Country("Benin", "BJ"),
    Country("Saint Barth\U{00E9}lemy", "BL"),
    Country("Bermuda", "BM"),
    Country("Brunei Darussalam", "BN"),
    Country("Bolivia", "BO")
  ]

  const Run4: seq<Country> := [
    Country("Bonaire, Sint Eustatius and Saba", "BQ"),
    Country("Brazil", "BR"),
    Country("Bahamas", "BS"),
    Country("Bhutan", "BT"),
    Country("Bouvet Island", "BV"),
    Country("Botswana", "BW"),
    Country("Belarus", "BY"),
    Country("Belize", "BZ")
  ]

  const Run5: seq<Country> := [
    Country("Canada", "CA"),
    Country("Cocos (Keeling) Islands", "CC"),
    Country("Congo, The Democratic Republic Of The", "CD"),
    Country("Central African Republic", "CF"),
    Country("Congo", "CG"),
    Country("Switzerland", "CH"),
    Country("C\U{00F4}te D'Ivoire", "CI"),
    Country("Cook Islands", "CK")
  ]

  const Run6: seq<Country> := [
    Country("Chile", "CL"),
    Country("Cameroon", "CM"),
    Country("China", "CN"),
    Country("Colombia", "CO"),
    Country("Costa Rica", "CR"),
    Country("Cuba", "CU"),
    Country("Cape Verde", "CV"),
    Country("Cura\U{00E7}ao", "CW")
  ]

  const Run7: seq<Country> := [
    Country("Christmas Island", "CX"),
    Country("Cyprus", "CY"),
    Country("Czech Republic", "CZ"),
    Country("Germany", "DE"),
    Country("Djibouti", "DJ"),
    Country("Denmark", "DK"),
    Country("Dominica", "DM"),
    Country("Dominican Republic", "DO")
  ]

  const Run8: seq<Country> := [
    Country("Algeria", "DZ"),
    Country("Ecuador", "EC"),
    Country("Estonia", "EE"),
    Country("Egypt", "EG"),
    Country("Western Sahara", "EH"),
    Country("Eritrea", "ER"),
    Country("Spain", "ES"),
    Country("Ethiopia", "ET")
  ]

  const Run9: seq<Country> := [
    Country("", "EU"),
    Country("Finland", "FI"),
    Country("Fiji", "FJ"),
    Country("Falkland Islands (Malvinas)", "FK"),
    Country("Micronesia, Federated States Of", "FM"),
    Country("Faroe Islands", "FO"),
    Country("France", "FR"),
    Country("Gabon", "GA")
  ]

  const Run10: seq<Country> := [
    Country("United Kingdom", "GB"),
    Country("Grenada", "GD"),
    Country("Georgia", "GE"),
    Country("French Guiana", "GF"),
    Country("Guernsey", "GG"),
    Country("Ghana", "GH"),
    Country("Gibraltar", "GI"),
    Country("Greenland", "GL")
  ]

  const Run11: seq<Country> := [
    Country("Gambia", "GM"),
    Country("Guinea", "GN"),
    Country("Guadeloupe", "GP"),
    Country("Equatorial Guinea", "GQ"),
    Country("Greece", "GR"),
    Country("South Georgia and the South Sandwich Islands", "GS"),
    Country("Guatemala", "GT"),
    Country("Guam", "GU")
  ]

  const Run12: seq<Country> := [
    Country("Guinea-Bissau", "GW"),
    Country("Guyana", "GY"),
    Country("Hong Kong", "HK"),
    Country("Heard and McDonald Islands", "HM"),
    Country("Honduras", "HN"),
    Country("Croatia", "HR"),
    Country("Haiti", "HT"),
    Country("Hungary", "HU")
  ]

  const Run13: seq<Country> := [
    Country("", "IC"),
    Country("Indonesia", "ID"),
    Country("Ireland", "IE"),
    Country("Israel", "IL"),
    Country("Isle of Man", "IM"),
    Country("India", "IN"),
    Country("British Indian Ocean Territory", "IO"),
    Country("Iraq", "IQ")
  ]

  const Run14: seq<Country> := [
    Country("Iran, Islamic Republic Of", "IR"),
    Country("Iceland", "IS"),
    Country("Italy", "IT"),
    Country("Jersey", "JE"),
    Country("Jamaica", "JM"),
    Country("Jordan", "JO"),
    Country("Japan", "JP"),
    Country("Kenya", "KE")
  ]

  const Run15: seq<Country> := [
    Country("Kyrgyzstan", "KG"),
    Country("Cambodia", "KH"),
    Country("Kiribati", "KI"),
    Country("Comoros", "KM"),
    Country("Saint Kitts And Nevis", "KN"),
    Country("Korea, Democratic People's Republic Of", "KP"),
    Country("Korea, Republic of", "KR"),
    Country("Kuwait", "KW")
  ]

  const Run16: seq<Country> := [
    Country("Cayman Islands", "KY"),
    Country("Kazakhstan", "KZ"),
    Country("Lao People's Democratic Republic", "LA"),
    Country("Lebanon", "LB"),
    Country("Saint Lucia", "LC"),
    Country("Liechtenstein", "LI"),
    Country("Sri Lanka", "LK"),
    Country("Liberia", "LR")
  ]

  const Run17: seq<Country> := [
    Country("Lesotho", "LS"),
    Country("Lithuania", "LT"),
    Country("Luxembourg", "LU"),
    Country("Latvia", "LV"),
    Country("Libya", "LY"),
    Country("Morocco", "MA"),
    Country("Monaco", "MC"),
    Country("Moldova, Republic of", "MD")
  ]

  const Run18: seq<Country> := [
    Country("Montenegro", "ME"),
    Country("Saint Martin", "MF"),
    Country("Madagascar", "MG"),
    Country("Marshall Islands", "MH"),
    Country("Macedonia, the Former Yugoslav Republic Of", "MK"),
    Country("Mali", "ML"),
    Country("Myanmar", "MM"),
    Country("Mongolia", "MN")
  ]

  const Run19: seq<Country> := [
    Country("Macao", "MO"),
    Country("Northern Mariana Islands", "MP"),
    Country("Martinique", "MQ"),
    Country("Mauritania", "MR"),
    Country("Montserrat", "MS"),
    Country("Malta", "MT"),
    Country("Mauritius", "MU"),
    Country("Maldives", "MV")
  ]

  const Run20: seq<Country> := [
    Country("Malawi", "MW"),
    Country("Mexico", "MX"),
    Country("Malaysia", "MY"),
    Country("Mozambique", "MZ"),
    Country("Namibia", "NA"),
    Country("New Caledonia", "NC"),
    Country("Niger", "NE"),
    Country("Norfolk Island", "NF")
  ]

  const Run21: seq<Country> := [
    Country("Nigeria", "NG"),
    Country("Nicaragua", "NI"),
    Country("Netherlands", "NL"),
    Country("Norway", "NO"),
    Country("Nepal", "NP"),
    Country("Nauru", "NR"),
    Country("Niue", "NU"),
    Country("", "NY")
  ]

  const Run22: seq<Country> := [
    Country("New Zealand", "NZ"),
    Country("Oman", "OM"),
    Country("Panama", "PA"),
    Country("Peru", "PE"),
    Country("French Polynesia", "PF"),
    Country("Papua New Guinea", "PG"),
    Country("Philippines", "PH"),
    Country("Pakistan", "PK")
  ]

  const Run23: seq<Country> := [
    Country("Poland", "PL"),
    Country("Saint Pierre And Miquelon", "PM"),
    Country("Pitcairn", "PN"),
    Country("Puerto Rico", "PR"),
    Country("Palestine, State of", "PS"),
    Country("Portugal", "PT"),
    Country("Palau", "PW"),
    Country("Paraguay", "PY")
  ]

  const Run24: seq<Country> := [
    Country("Qatar", "QA"),
    Country("R\U{00E9}union", "RE"),
    Country("Romania", "RO"),
    Country("Serbia", "RS"),
    Country("Russian Federation", "RU"),
    Country("Rwanda", "RW"),
    Country("Saudi Arabia", "SA"),
    Country("Solomon Islands", "SB")
  ]

  const Run25: seq<Country> := [
    Country("Seychelles", "SC"),
    Country("Sudan", "SD"),
    Country("Sweden", "SE"),
    Country("Singapore", "SG"),
    Country("Saint Helena", "SH"),
    Country("Slovenia", "SI"),
    Country("Svalbard And Jan Mayen", "SJ"),
    Country("Slovakia", "SK")
  ]

  const Run26: seq<Country> := [
    Country("Sierra Leone", "SL"),
    Country("San Marino", "SM"),
    Country("Senegal", "SN"),
    Country("Somalia", "SO"),
    Country("Suriname", "SR"),
    Country("South Sudan", "SS"),
    Country("Sao Tome and Principe", "ST"),
    Country("El Salvador", "SV")
  ]

  const Run27: seq<Country> := [
    Country("Sint Maarten", "SX"),
    Country("Syrian Arab Republic", "SY"),
    Country("Swaziland", "SZ"),
    Country("Turks and Caicos Islands", "TC"),
    Country("Chad", "TD"),
    Country("French Southern Territories", "TF"),
    Country("Togo", "TG"),
    Country("Thailand", "TH")
  ]

  const Run28: seq<Country> := [
    Country("Tajikistan", "TJ"),
    Country("Tokelau", "TK"),
    Country("Timor-Leste", "TL"),
    Country("Turkmenistan", "TM"),
    Country("Tunisia", "TN"),
    Country("Tonga", "TO"),
    Country("Turkey", "TR"),
    Country("Trinidad and Tobago", "TT")
  ]

  const Run29: seq<Country> := [
    Country("Tuvalu", "TV"),
    Country("Taiwan, Republic Of China", "TW"),
    Country("Tanzania, United Republic of", "TZ"),
    Country("Ukraine", "UA"),
    Country("Uganda", "UG"),
    Country("United States Minor Outlying Islands", "UM"),
    Country("United States", "US"),
    Country("Uruguay", "UY")
  ]

  const Run30: seq<Country> := [
    Country("Uzbekistan", "UZ"),
    Country("Holy See (Vatican City State)", "VA"),
    Country("Saint Vincent And The Grenadines", "VC"),
    Country("Venezuela, Bolivarian Republic of", "VE"),
    Country("Virgin Islands, British", "VG"),
    Country("Virgin Islands, U.S.", "VI"),
    Country("Vietnam", "VN"),
    Country("Vanuatu", "VU")
  ]

  const Run31: seq<Country> := [
    Country("Wallis and Futuna", "WF"),
    Country("Samoa", "WS"),
    Country("", "XK"),
    Country("Yemen", "YE"),
    Country("Mayotte", "YT"),
    Country("South Africa", "ZA"),
    Country("Zambia", "ZM"),
    Country("Zimbabwe", "ZW")
  ]

  const Part0: seq<Country> :=
    Run0 + (Run1 + (Run2 + (Run3 + (Run4 + (Run5 + (Run6 + Run7))))))

  const Part1: seq<Country> :=
    Run8 + (Run9 + (Run10 + (Run11 + (Run12 + (Run13 + (Run14 + Run15))))))

  const Part2: seq<Country> :=
    Run16 + (Run17 + (Run18 + (Run19 + (Run20 + (Run21 + (Run22 + Run23))))))

  const Part3: seq<Country> :=
    Run24 + (Run25 + (Run26 + (Run27 + (Run28 + (Run29 + (Run30 + Run31))))))

  const LocalFallback: seq<Country> :=
    Part0 + (Part1 + (Part2 + Part3))

  /** `a` comes strictly before `b` in the alphabetical order of alpha-2
      codes. */
  predicate CodeBefore(a: string, b: string)
    requires IsAlpha2(a) && IsAlpha2(b)
  {
    a[0] < b[0] || (a[0] == b[0] && a[1] < b[1])
  }

  /** Every code of `run` is alpha-2 and lies alphabetically between `first`
      and `last`, and the codes are distinct. */
  predicate RunOk(run: seq<Country>, first: string, last: string)
    requires IsAlpha2(first) && IsAlpha2(last)
  {
    && (forall i :: 0 <= i < |run| ==>
          IsAlpha2(run[i].code) && !CodeBefore(run[i].code, first) && !CodeBefore(last, run[i].code))
    && DistinctCodes(run)
  }

  /** Two well-formed runs, the first ending alphabetically before the second
      starts, concatenate to a well-formed run. */
  lemma ConcatRuns(a: seq<Country>, f1: string, l1: string, b: seq<Country>, f2: string, l2: string)
    requires IsAlpha2(f1) && IsAlpha2(l1) && IsAlpha2(f2) && IsAlpha2(l2)
    requires RunOk(a, f1, l1) && RunOk(b, f2, l2)
    requires !CodeBefore(l1, f1) && CodeBefore(l1, f2) && !CodeBefore(l2, f2)
    ensures RunOk(a + b, f1, l2)
  {
    forall i | 0 <= i < |a + b|
      ensures IsAlpha2((a + b)[i].code)
      ensures !CodeBefore((a + b)[i].code, f1) && !CodeBefore(l2, (a + b)[i].code)
    {
      if i < |a| {
        assert !CodeBefore(l1, a[i].code);
      } else {
        assert !CodeBefore(b[i - |a|].code, f2);
      }
    }
    forall i, j | 0 <= i < j < |a + b| ensures (a + b)[i].code != (a + b)[j].code {
      if j < |a| {
      } else if i >= |a| {
        assert b[i - |a|].code != b[j - |a|].code;
      } else {
        assert !CodeBefore(l1, (a + b)[i].code);
        assert !CodeBefore((a + b)[j].code, f2);
      }
    }
  }

  lemma Run0Ok()
    ensures RunOk(Run0, "AD", "AL")
  {
  }

  lemma Run1Ok()
    ensures RunOk(Run1, "AM", "AU")
  {
  }

  lemma Run2Ok()
    ensures RunOk(Run2, "AW", "BF")
  {
  }

  lemma Run3Ok()
    ensures RunOk(Run3, "BG", "BO")
  {
  }

  lemma Run4Ok()
    ensures RunOk(Run4, "BQ", "BZ")
  {
  }

  lemma Run5Ok()
    ensures RunOk(Run5, "CA", "CK")
  {
  }

  lemma Run6Ok()
    ensures RunOk(Run6, "CL", "CW")
  {
  }

  lemma Run7Ok()
    ensures RunOk(Run7, "CX", "DO")
  {
  }

  lemma Run8Ok()
    ensures RunOk(Run8, "DZ", "ET")
  {
  }

  lemma Run9Ok()
    ensures RunOk(Run9, "EU", "GA")
  {
  }

  lemma Run10Ok()
    ensures RunOk(Run10, "GB", "GL")
  {
  }

  lemma Run11Ok()
    ensures RunOk(Run11, "GM", "GU")
  {
  }

  lemma Run12Ok()
    ensures RunOk(Run12, "GW", "HU")
  {
  }

  lemma Run13Ok()
    ensures RunOk(Run13, "IC", "IQ")
  {
  }

  lemma Run14Ok()
    ensures RunOk(Run14, "IR", "KE")
  {
  }

  lemma Run15Ok()
    ensures RunOk(Run15, "KG", "KW")
  {
  }

  lemma Run16Ok()
    ensures RunOk(Run16, "KY", "LR")
  {
  }

  lemma Run17Ok()
    ensures RunOk(Run17, "LS", "MD")
  {
  }

  lemma Run18Ok()
    ensures RunOk(Run18, "ME", "MN")
  {
  }

  lemma Run19Ok()
    ensures RunOk(Run19, "MO", "MV")
  {
  }

  lemma Run20Ok()
    ensures RunOk(Run20, "MW", "NF")
  {
  }

  lemma Run21Ok()
    ensures RunOk(Run21, "NG", "NY")
  {
  }

  lemma Run22Ok()
    ensures RunOk(Run22, "NZ", "PK")
  {
  }

  lemma Run23Ok()
    ensures RunOk(Run23, "PL", "PY")
  {
  }

  lemma Run24Ok()
    ensures RunOk(Run24, "QA", "SB")
  {
  }

  lemma Run25Ok()
    ensures RunOk(Run25, "SC", "SK")
  {
  }

  lemma Run26Ok()
    ensures RunOk(Run26, "SL", "SV")
  {
  }

  lemma Run27Ok()
    ensures RunOk(Run27, "SX", "TH")
  {
  }

  lemma Run28Ok()
    ensures RunOk(Run28, "TJ", "TT")
  {
  }

  lemma Run29Ok()
    ensures RunOk(Run29, "TV", "UY")
  {
  }

  lemma Run30Ok()
    ensures RunOk(Run30, "UZ", "VU")
  {
  }

  lemma Run31Ok()
    ensures RunOk(Run31, "WF", "ZW")
  {
  }

  lemma Part0Ok()
    ensures RunOk(Part0, "AD", "DO")
  {
    Run0Ok();
    Run1Ok();
    Run2Ok();
    Run3Ok();
    Run4Ok();
    Run5Ok();
    Run6Ok();
    Run7Ok();
    ConcatRuns(Run6, "CL", "CW", Run7, "CX", "DO");
    ConcatRuns(Run5, "CA", "CK", Run6 + Run7, "CL", "DO");
    ConcatRuns(Run4, "BQ", "BZ", Run5 + (Run6 + Run7), "CA", "DO");
    ConcatRuns(Run3, "BG", "BO", Run4 + (Run5 + (Run6 + Run7)), "BQ", "DO");
    ConcatRuns(Run2, "AW", "BF", Run3 + (Run4 + (Run5 + (Run6 + Run7))), "BG", "DO");
    ConcatRuns(Run1, "AM", "AU", Run2 + (Run3 + (Run4 + (Run5 + (Run6 + Run7)))), "AW", "DO");
    ConcatRuns(Run0, "AD", "AL", Run1 + (Run2 + (Run3 + (Run4 + (Run5 + (Run6 + Run7))))), "AM", "DO");
  }

  lemma Part1Ok()
    ensures RunOk(Part1, "DZ", "KW")
  {
    Run8Ok();
    Run9Ok();
    Run10Ok();
    Run11Ok();
    Run12Ok();
    Run13Ok();
    Run14Ok();
    Run15Ok();
    ConcatRuns(Run14, "IR", "KE", Run15, "KG", "KW");
    ConcatRuns(Run13, "IC", "IQ", Run14 + Run15, "IR", "KW");
    ConcatRuns(Run12, "GW", "HU", Run13 + (Run14 + Run15), "IC", "KW");
    ConcatRuns(Run11, "GM", "GU", Run12 + (Run13 + (Run14 + Run15)), "GW", "KW");
    ConcatRuns(Run10, "GB", "GL", Run11 + (Run12 + (Run13 + (Run14 + Run15))), "GM", "KW");
    ConcatRuns(Run9, "EU", "GA", Run10 + (Run11 + (Run12 + (Run13 + (Run14 + Run15)))), "GB", "KW");
    ConcatRuns(Run8, "DZ", "ET", Run9 + (Run10 + (Run11 + (Run12 + (Run13 + (Run14 + Run15))))), "EU", "KW");
  }

  lemma Part2Ok()
    ensures RunOk(Part2, "KY", "PY")
  {
    Run16Ok();
    Run17Ok();
    Run18Ok();
    Run19Ok();
    Run20Ok();
    Run21Ok();
    Run22Ok();
    Run23Ok();
    ConcatRuns(Run22, "NZ", "PK", Run23, "PL", "PY");
    ConcatRuns(Run21, "NG", "NY", Run22 + Run23, "NZ", "PY");
    ConcatRuns(Run20, "MW", "NF", Run21 + (Run22 + Run23), "NG", "PY");
    ConcatRuns(Run19, "MO", "MV", Run20 + (Run21 + (Run22 + Run23)), "MW", "PY");
    ConcatRuns(Run18, "ME", "MN", Run19 + (Run20 + (Run21 + (Run22 + Run23))), "MO", "PY");
    ConcatRuns(Run17, "LS", "MD", Run18 + (Run19 + (Run20 + (Run21 + (Run22 + Run23)))), "ME", "PY");
    ConcatRuns(Run16, "KY", "LR", Run17 + (Run18 + (Run19 + (Run20 + (Run21 + (Run22 + Run23))))), "LS", "PY");
  }

  lemma Part3Ok()
    ensures RunOk(Part3, "QA", "ZW")
  {
    Run24Ok();
    Run25Ok();
    Run26Ok();
    Run27Ok();
    Run28Ok();
    Run29Ok();
    Run30Ok();
    Run31Ok();
    ConcatRuns(Run30, "UZ", "VU", Run31, "WF", "ZW");
    ConcatRuns(Run29, "TV", "UY", Run30 + Run31, "UZ", "ZW");
    ConcatRuns(Run28, "TJ", "TT", Run29 + (Run30 + Run31), "TV", "ZW");
    ConcatRuns(Run27, "SX", "TH", Run28 + (Run29 + (Run30 + Run31)), "TJ", "ZW");
    ConcatRuns(Run26, "SL", "SV", Run27 + (Run28 + (Run29 + (Run30 + Run31))), "SX", "ZW");
    ConcatRuns(Run25, "SC", "SK", Run26 + (Run27 + (Run28 + (Run29 + (Run30 + Run31)))), "SL", "ZW");
    ConcatRuns(Run24, "QA", "SB", Run25 + (Run26 + (Run27 + (Run28 + (Run29 + (Run30 + Run31))))), "SC", "ZW");
  }

  /** Every code of the fallback table is two upper-case letters and the
      codes are pairwise distinct; the table has 256 entries, among them the
      nameless `AH`. */
  lemma LocalFallbackWellFormed()
    ensures |LocalFallback| == 256
    ensures forall i :: 0 <= i < |LocalFallback| ==> IsAlpha2(LocalFallback[i].code)
    ensures DistinctCodes(LocalFallback)
    ensures LocalFallback[5] == Country("", "AH")
  {
    Part0Ok();
    Part1Ok();
    Part2Ok();
    Part3Ok();
    ConcatRuns(Part2, "KY", "PY", Part3, "QA", "ZW");
    ConcatRuns(Part1, "DZ", "KW", Part2 + Part3, "KY", "ZW");
    ConcatRuns(Part0, "AD", "DO", Part1 + (Part2 + Part3), "DZ", "ZW");
  }
}
