/** The word catalog of the quiz in src/App.jsx (`dictionary`, 183 entries). */
module AppWords {
  import opened Quiz
  import AppGame

  /** `dictionary`, in source order; an entry is identified by its position. */
  const Dictionary: seq<WordEntry> := [
    WordEntry("蘋果", "ping4 gwo2"),
    WordEntry("香蕉", "hoeng1 ziu1"),
    WordEntry("士多啤梨", "si6 do1 be1 lei2"),
    WordEntry("橙", "caang2"),
    WordEntry("西瓜", "sai1 gwaa1"),
    WordEntry("葡萄", "pou4 tou4"),
    WordEntry("檸檬", "ning4 mung1"),
    WordEntry("桃", "tou4"),
    WordEntry("梨", "lei2"),
    WordEntry("芒果", "mong1 gwo2"),
    WordEntry("貓", "maau1"),
    WordEntry("狗", "gau2"),
    WordEntry("雀", "zoek3"),
    WordEntry("魚", "jyu4"),
    WordEntry("兔仔", "tou3 zai2"),
    WordEntry("獅子", "si1 zi2"),
    WordEntry("老虎", "lou5 fu2"),
    WordEntry("大象", "daai6 zoeng6"),
    WordEntry("馬", "maa5"),
    WordEntry("牛", "ngau4"),
    WordEntry("紅色", "hung4 sik1"),
    WordEntry("藍色", "laam4 sik1"),
    WordEntry("黃色", "wong4 sik1"),
    WordEntry("綠色", "luk6 sik1"),
    WordEntry("白色", "baak6 sik1"),
    WordEntry("黑色", "hak1 sik1"),
    WordEntry("紫色", "zi2 sik1"),
    WordEntry("橙色", "caang2 sik1"),
    WordEntry("粉紅色", "fan2 hung4 sik1"),
    WordEntry("灰色", "fui1 sik1"),
    WordEntry("頭", "tau4"),
    WordEntry("眼", "ngaan5"),
    WordEntry("耳", "ji5"),
    WordEntry("口", "hau2"),
    WordEntry("手", "sau2"),
    WordEntry("腳", "goek3"),
    WordEntry("鼻", "bei6"),
    WordEntry("頭髮", "tau4 faat3"),
    WordEntry("牙齒", "ngaa4 ci2"),
    WordEntry("肚", "tou5"),
    WordEntry("爸爸", "baa4 baa1"),
    WordEntry("媽媽", "maa1 maa1"),
    WordEntry("哥哥", "go1 go1"),
    WordEntry("姐姐", "ze4 ze1"),
    WordEntry("弟弟", "dai4 dai2"),
    WordEntry("妹妹", "mui4 mui2"),
    WordEntry("公公", "gung1 gung1"),
    WordEntry("婆婆", "po4 po2"),
    WordEntry("爺爺", "je4 je2"),
    WordEntry("嫲嫲", "maa4 maa4"),
    WordEntry("太陽", "taai3 joeng4"),
    WordEntry("月亮", "jyut6 loeng6"),
    WordEntry("星星", "sing1 sing1"),
    WordEntry("雲", "wan4"),
    WordEntry("雨", "jyu5"),
    WordEntry("風", "fung1"),
    WordEntry("雪", "syut3"),
    WordEntry("山", "saan1"),
    WordEntry("水", "seoi2"),
    WordEntry("花", "faa1"),
    WordEntry("我", "ngo5"),
    WordEntry("你", "nei5"),
    WordEntry("佢", "keoi5"),
    WordEntry("我哋", "ngo5 dei6"),
    WordEntry("你哋", "nei5 dei6"),
    WordEntry("佢哋", "keoi5 dei6"),
    WordEntry("咩", "me1"),
    WordEntry("邊個", "bin1 go3"),
    WordEntry("邊到", "bin1 dou6"),
    WordEntry("點解", "dim2 gaai2"),
    WordEntry("點", "dim2"),
    WordEntry("幾時", "gei2 si4"),
    WordEntry("然後", "jin4 hau6"),
    WordEntry("如果", "jyu4 gwo2"),
    WordEntry("真", "zan1"),
    WordEntry("但係", "daan6 hai6"),
    WordEntry("因為", "jan1 wai6"),
    WordEntry("唔", "m4"),
    WordEntry("呢個", "ni1 go3"),
    WordEntry("我要呢個", "ngo5 jiu3 ni1 go3"),
    WordEntry("呢個幾錢？", "ni1 go3 gei2 cin2"),
    WordEntry("嗰個", "go2 go3"),
    WordEntry("所有", "so2 jau5"),
    WordEntry("或者", "waak6 ze2"),
    WordEntry("同", "tung4"),
    WordEntry("知", "zi1"),
    WordEntry("我知", "ngo5 zi1"),
    WordEntry("我唔知", "ngo5 m4 zi1"),
    WordEntry("諗", "nam2"),
    WordEntry("來", "loi4"),
    WordEntry("放", "fong3"),
    WordEntry("攞", "lo2"),
    WordEntry("搵到", "wan2 dou3"),
    WordEntry("聽", "ting1"),
    WordEntry("做嘢", "zou6 je5"),
    WordEntry("講", "gong2"),
    WordEntry("畀", "bei2"),
    WordEntry("鐘意", "zung1 ji3"),
    WordEntry("幫", "bong1"),
    WordEntry("愛", "oi3"),
    WordEntry("打電話", "daa2 din6 waa2"),
    WordEntry("等", "dang2"),
    WordEntry("我鐘意你", "ngo5 zung1 ji3 nei5"),
    WordEntry("我唔鐘意呢個", "ngo5 m4 zung1 ji3 ni1 go3"),
    WordEntry("你愛唔愛我呀?", "nei5 oi3 m4 oi3 ngo5 aa3"),
    WordEntry("我愛你", "ngo5 oi3 nei5"),
    WordEntry("零", "ling4"),
    WordEntry("一", "jat1"),
    WordEntry("二", "ji6"),
    WordEntry("三", "saam1"),
    WordEntry("四", "sei3"),
    WordEntry("五", "ng5"),
    WordEntry("六", "luk6"),
    WordEntry("有", "jau5"),
    WordEntry("冇", "mou5"),
    WordEntry("係", "hai6"),
    WordEntry("唔係", "m4 hai6"),
    WordEntry("識", "sik1"),
    WordEntry("唔識", "m4 sik1"),
    WordEntry("想", "soeng2"),
    WordEntry("唔想", "m4 soeng2"),
    WordEntry("去", "heoi3"),
    WordEntry("嚟", "lai4"),
    WordEntry("食", "sik6"),
    WordEntry("飲", "jam2"),
    WordEntry("睇", "tai2"),
    WordEntry("做", "zou6"),
    WordEntry("返", "faan1"),
    WordEntry("買", "maai5"),
    WordEntry("賣", "maai6"),
    WordEntry("錢", "cin2"),
    WordEntry("幾多", "gei2 do1"),
    WordEntry("時間", "si4 gaan3"),
    WordEntry("今日", "gam1 jat6"),
    WordEntry("聽日", "ting1 jat6"),
    WordEntry("琴日", "kam4 jat6"),
    WordEntry("早上", "zou2 soeng6"),
    WordEntry("下晝", "haa6 zau3"),
    WordEntry("晚", "maan5"),
    WordEntry("早晨", "zou2 san4"),
    WordEntry("午安", "ng5 on1"),
    WordEntry("晚安", "maan5 on1"),
    WordEntry("你好", "nei5 hou2"),
    WordEntry("再見", "zoi3 gin3"),
    WordEntry("唔該", "m4 goi1"),
    WordEntry("多謝", "do1 ze6"),
    WordEntry("對唔住", "deoi3 m4 zyu6"),
    WordEntry("唔好意思", "m4 hou2 ji3 si1"),
    WordEntry("唔使客氣", "m4 sai2 haak3 hei3"),
    WordEntry("朋友", "pang4 jau5"),
    WordEntry("屋企", "uk1 kei2"),
    WordEntry("大", "daai6"),
    WordEntry("細", "sai3"),
    WordEntry("好", "hou2"),
    WordEntry("靚", "leng3"),
    WordEntry("凍", "dung3"),
    WordEntry("熱", "jit6"),
    WordEntry("開心", "hoi1 sam1"),
    WordEntry("鍾意", "zung1 ji3"),
    WordEntry("冇問題", "mou5 man6 tai4"),
    WordEntry("明唔明", "ming4 m4 ming4"),
    WordEntry("明白", "ming4 baak6"),
    WordEntry("唔明白", "m4 ming4 baak6"),
    WordEntry("知道", "zi1 dou3"),
    WordEntry("唔知", "m4 zi1"),
    WordEntry("喺", "hai2"),
    WordEntry("邊度", "bin1 dou6"),
    WordEntry("洗手間", "sai2 sau2 gaan1"),
    WordEntry("廁所", "ci3 so2"),
    WordEntry("食飯", "sik6 faan6"),
    WordEntry("飲水", "jam2 seoi2"),
    WordEntry("學習", "hok6 zaap6"),
    WordEntry("工作", "gung1 zok3"),
    WordEntry("學校", "hok6 haau6"),
    WordEntry("學生", "hok6 sang1"),
    WordEntry("老師", "lou5 si1"),
    WordEntry("書", "syu1"),
    WordEntry("電腦", "din6 nou5"),
    WordEntry("電話", "din6 waa2"),
    WordEntry("坐", "co5"),
    WordEntry("行", "haang4"),
    WordEntry("咪", "mai6"),
    WordEntry("正", "zing3")
  ]

  /** The transcription holds all 183 entries of `dictionary`. */
  lemma DictionarySize()
    ensures |Dictionary| == 183
  {
  }

  /** The component as the page mounts it: over `dictionary`, on the start
      screen. */
  method Mount() returns (g: AppGame.Game)
    ensures fresh(g) && g.Valid() && g.catalog == Dictionary && |g.catalog| == 183
    ensures g.gameState == Start && g.score == 0 && g.currentRound == 1
  {
    g := new AppGame.Game(Dictionary);
    DictionarySize();
  }
}
