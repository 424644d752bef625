/** The report reads one column of each platform's log, chosen from the file
    name; these lemmas tie that choice to the writers: in every row a
    scraper appends, the chosen column holds the follower (or fan) count. */
module Columns {
  import opened Wrappers
  import opened Text
  import CsvLog
  import Analysis
  import Csdn
  import Juejin
  import Zhihu
  import Toutiao

  /** In `csdn_stats.csv` the report reads the follower column. */
  lemma {:induction false} CsdnFollowersColumn(path: string, stamp: string, page: Csdn.Page)
    requires Contains(Lower(path), "csdn")
    requires ',' !in stamp
    ensures Analysis.ColumnFor(path) == Some(3)
    ensures var fields := CsvLog.Fields(Csdn.LogRow(stamp, Csdn.Sample(page)));
            |fields| == 5 && fields[3] == Csdn.Sample(page).followers
  {
    Csdn.LogRowFields(stamp, page);
  }

  /** In `toutiao_stats.csv` the report reads the fan column. */
  lemma {:induction false} ToutiaoFansColumn(path: string, rowStamp: string, t: string)
    requires Contains(Lower(path), "toutiao") && !Contains(Lower(path), "csdn")
    requires ',' !in rowStamp
    ensures Analysis.ColumnFor(path) == Some(2)
    ensures var row := [rowStamp, Toutiao.Field(Toutiao.LikesPattern, t), Toutiao.Field(Toutiao.FansPattern, t),
                        Toutiao.Field(Toutiao.FollowsPattern, t)];
            var fields := CsvLog.Fields(CsvLog.Row(row));
            |fields| == 4 && fields[2] == Toutiao.Field(Toutiao.FansPattern, t)
  {
    Toutiao.RowFieldsRead(rowStamp, t);
  }

  /** In `juejin_stats.csv` the report reads the follower column. */
  lemma {:induction false} JuejinFollowersColumn(path: string, stamp: string, page: Juejin.Page)
    requires Contains(Lower(path), "juejin") && !Contains(Lower(path), "csdn") && !Contains(Lower(path), "toutiao")
    requires ',' !in stamp
    ensures Analysis.ColumnFor(path) == Some(4)
    ensures var fields := CsvLog.Fields(Juejin.LogRow(stamp, Juejin.Sample(page)));
            |fields| == 5 && fields[4] == Juejin.Sample(page).followers
  {
    Juejin.LogRowFields(stamp, page);
  }

  /** In `zhihu_stats.csv` the report reads the follower column. */
  lemma {:induction false} ZhihuFollowersColumn(path: string, s: Zhihu.ZhihuStats)
    requires Contains(Lower(path), "zhihu") && !Contains(Lower(path), "csdn") &&
             !Contains(Lower(path), "toutiao") && !Contains(Lower(path), "juejin")
    requires ',' !in s.timestamp
    ensures Analysis.ColumnFor(path) == Some(5)
    ensures var fields := CsvLog.Fields(CsvLog.Row(Zhihu.RowFields(s)));
            |fields| == 6 && fields[5] == IntText(s.followers)
  {
    Zhihu.RowFieldsRead(s);
  }
}
