/** Response codes and their messages (controller/code.go). */
module Codes {

  /** ResCode is an int64 in Go. */
  type ResCode = int

  // Declared with iota, starting at 1000, in this order.
  const CodeSuccess: ResCode := 1000
  const CodeInvalidParam: ResCode := CodeSuccess + 1
  const CodeUserExist: ResCode := CodeSuccess + 2
  const CodeUserNotExist: ResCode := CodeSuccess + 3
  const CodeInvalidPassword: ResCode := CodeSuccess + 4
  const CodeServerBusy: ResCode := CodeSuccess + 5
  const CodeNeedLogin: ResCode := CodeSuccess + 6
  const CodeInvalidToken: ResCode := CodeSuccess + 7

  /** Every declared code, in declaration order. */
  const DeclaredCodes: seq<ResCode> := [
    CodeSuccess, CodeInvalidParam, CodeUserExist, CodeUserNotExist,
    CodeInvalidPassword, CodeServerBusy, CodeNeedLogin, CodeInvalidToken]

  const CodeMsgMap: map<ResCode, string> := map[
    CodeSuccess := "success",
    CodeInvalidParam := "请求参数错误",
    CodeUserExist := "用户已存在",
    CodeUserNotExist := "用户不存在",
    CodeInvalidPassword := "用户名或密码错误",
    CodeServerBusy := "服务器繁忙",
    CodeInvalidToken := "无效的Token",
    CodeNeedLogin := "需要登录"]

  /** The message of a code: the table entry when there is one, "unknown" exactly when there is none. */
  function Msg(c: ResCode): (m: string)
    ensures c in CodeMsgMap ==> m == CodeMsgMap[c]
    ensures m == "unknown" <==> c !in CodeMsgMap
  {
    if c in CodeMsgMap then CodeMsgMap[c] else "unknown"
  }

  /** The codes run 1000, 1001, ..., 1007 in declaration order. */
  lemma CodesConsecutive()
    ensures |DeclaredCodes| == 8
    ensures forall i :: 0 <= i < |DeclaredCodes| ==> DeclaredCodes[i] == CodeSuccess + i
  {
  }

  /** Every declared code has its own message, and no two codes share one. */
  lemma EveryDeclaredCodeHasMessage()
    ensures forall c :: c in DeclaredCodes ==> c in CodeMsgMap && Msg(c) != "unknown"
    ensures CodeMsgMap.Keys == set c | c in DeclaredCodes
    ensures Msg(CodeSuccess) == "success"
  {
  }
}
