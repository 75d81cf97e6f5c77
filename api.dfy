/**
 * The inputs of the ten operations the sender service offers, with the
 * widths of the Go types that carry them.
 */
module Api {

  newtype int32 = x: int | -0x8000_0000 <= x < 0x8000_0000
  newtype int64 = x: int | -0x8000_0000_0000_0000 <= x < 0x8000_0000_0000_0000

  /** A Go float64, as its IEEE-754 bit pattern; only foreign code renders it. */
  type Float64 = bv64

  /** The status record SendStatus receives. */
  datatype WeiboStatus = WeiboStatus(
    status: string,
    accessToken: string,
    visible: int32,
    listId: string,
    latitude: Float64,
    longitude: Float64,
    annotations: string,
    realIp: string,
    pic: string)

  /** One call on the service, with its arguments. */
  datatype Op =
    | Ping
    | SendStatus(weibo: WeiboStatus)
    | SendMessage(accessToken: string, kind: string, data: string, receiverId: int64, saveSenderBox: int32)
    | GetUserInfoById(accessToken: string, uid: int64)
    | GetEmotions(accessToken: string, emotionType: string)
    | GetUserInfoByName(accessToken: string, screenName: string)
    | GetStatuses(accessToken: string, sinceId: int64, maxId: int64, count: int32, page: int32)
    | GetConcernStatuses(accessToken: string, sinceId: int64, maxId: int64, count: int32, page: int32)
    | GetStatusInteractCount(accessToken: string, ids: string)
    | CreateComments(accessToken: string, comments: string, msgId: int64, isCommentOri: int32)
}
