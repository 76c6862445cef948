/** The word catalog of the quiz in index.jsx (`WORD_DATABASE`, 61 entries),
    kept in the source's order and grouped by its theme headings. */
module IndexWords {
  import opened Quiz

  const Animals: seq<WordEntry> := [
    WordEntry("貓", "maau1"),
    WordEntry("狗", "gau2"),
    WordEntry("魚", "jyu2"),
    WordEntry("鳥", "niu5"),
    WordEntry("豬", "zyu1"),
    WordEntry("牛", "ngau4"),
    WordEntry("羊", "joeng4"),
    WordEntry("馬", "maa5"),
    WordEntry("雞", "gai1"),
    WordEntry("鴨", "aap3"),
    WordEntry("兔", "tou3"),
    WordEntry("熊", "hung4"),
    WordEntry("虎", "fu2"),
    WordEntry("獅", "si1"),
    WordEntry("象", "zoeng6")
  ]

  const Food: seq<WordEntry> := [
    WordEntry("水", "seoi2"),
    WordEntry("飯", "faan6"),
    WordEntry("麵", "min6"),
    WordEntry("蛋", "daan2"),
    WordEntry("包", "baau1"),
    WordEntry("菜", "coi3"),
    WordEntry("果", "gwo2"),
    WordEntry("糖", "tong2"),
    WordEntry("奶", "naai5"),
    WordEntry("餅", "beng2")
  ]

  const Body: seq<WordEntry> := [
    WordEntry("頭", "tau4"),
    WordEntry("手", "sau2"),
    WordEntry("腳", "goek3"),
    WordEntry("眼", "ngaan5"),
    WordEntry("耳", "ji5"),
    WordEntry("口", "hau2"),
    WordEntry("鼻", "bei6"),
    WordEntry("牙", "ngaa4")
  ]

  const Nature: seq<WordEntry> := [
    WordEntry("天", "tin1"),
    WordEntry("地", "dei6"),
    WordEntry("日", "jat6"),
    WordEntry("月", "jyut6"),
    WordEntry("星", "sing1"),
    WordEntry("花", "faa1"),
    WordEntry("草", "cou2"),
    WordEntry("樹", "syu6"),
    WordEntry("山", "saan1"),
    WordEntry("水", "seoi2"),
    WordEntry("門", "mun4"),
    WordEntry("窗", "coeng1"),
    WordEntry("書", "syu1"),
    WordEntry("筆", "bat1")
  ]

  const Colors: seq<WordEntry> := [
    WordEntry("紅", "hung4"),
    WordEntry("黃", "wong4"),
    WordEntry("藍", "laam4"),
    WordEntry("綠", "luk6"),
    WordEntry("白", "baak6"),
    WordEntry("黑", "hak1")
  ]

  const People: seq<WordEntry> := [
    WordEntry("我", "ngo5"),
    WordEntry("你", "nei5"),
    WordEntry("他", "taa1"),
    WordEntry("好", "hou2"),
    WordEntry("大", "daai6"),
    WordEntry("小", "siu2"),
    WordEntry("多", "do1"),
    WordEntry("少", "siu2")
  ]

  /** `WORD_DATABASE`; an entry is identified by its position. */
  const WordDatabase: seq<WordEntry> := Animals + Food + Body + Nature + Colors + People

  /** The catalog holds 水 twice, as two distinct entries (the first of the
      food words and the tenth of the nature words). */
  lemma WaterListedTwice()
    ensures |WordDatabase| == 61
    ensures WordDatabase[15].word == WordDatabase[42].word == "水"
  {
    assert WordDatabase[15] == Food[0];
    assert WordDatabase[42] == Nature[9];
  }
}
