/** The login screen: a phone step that requests an OTP and an OTP step that verifies it. */
module LoginScreen {
  import opened Wrappers
  import opened Http
  import opened OtpService
  import opened Ui

  datatype Step = PhoneStep | OtpStep

  const MissingPhoneAlert := Alert("กรุณากรอกเบอร์มือถือ", None)
  const BadOtpAlert := Alert("กรุณากรอก OTP 6 หลัก", None)
  const LoggedInAlert := Alert("เข้าสู่ระบบสำเร็จ", None)

  function OtpSentAlert(phone: string): Alert {
    Alert("สำเร็จ", Some("ส่ง OTP ไปที่ " + phone))
  }

  function FailureAlert(message: string): Alert {
    Alert("ผิดพลาด", Some(message))
  }

  class Login {
    var step: Step
    var phone: string
    var otp: string
    var loading: bool
    /** Alerts shown, in order. */
    var alerts: seq<Alert>
    /** Routes pushed, in order. */
    var pushed: seq<string>
    /** Requests sent to the OTP service, in order. */
    var requests: seq<Request<OtpBody>>

    constructor ()
      ensures step == PhoneStep && phone == "" && otp == "" && !loading
      ensures alerts == [] && pushed == [] && requests == []
    {
      step := PhoneStep;
      phone := "";
      otp := "";
      loading := false;
      alerts := [];
      pushed := [];
      requests := [];
    }

    /** `handleSendOtp()`. An empty phone shows an alert and moves on to `/order` without
        a request, staying on the phone step. Otherwise the OTP is requested; success
        moves to the OTP step, failure shows the message and keeps the step. */
    method HandleSendOtp<J>(fetch: Request<OtpBody> -> FetchOutcome, parse: JsonParser<J>)
      modifies this`step, this`loading, this`alerts, this`pushed, this`requests
      ensures phone == "" ==>
                alerts == old(alerts) + [MissingPhoneAlert] && pushed == old(pushed) + [OrderRoute]
                && requests == old(requests) && step == old(step) && loading == old(loading)
      ensures phone != "" ==>
                requests == old(requests) + [SendOtpRequest(phone)] && pushed == old(pushed) && !loading
                && var r := SendOtp(phone, fetch, parse);
                   (r.Success? ==> step == OtpStep && alerts == old(alerts) + [OtpSentAlert(phone)])
                   && (r.Failure? ==> step == old(step) && alerts == old(alerts) + [FailureAlert(r.error.message)])
    {
      if phone == "" {
        alerts := alerts + [MissingPhoneAlert];
        pushed := pushed + [OrderRoute];
        return;
      }
      loading := true;
      requests := requests + [SendOtpRequest(phone)];
      var data := SendOtp(phone, fetch, parse);
      if data.Success? {
        alerts := alerts + [OtpSentAlert(phone)];
        step := OtpStep;
      } else {
        alerts := alerts + [FailureAlert(data.error.message)];
      }
      loading := false;
    }

    /** `handleVerifyOtp()`. An OTP that is not six characters long shows an alert and
        sends nothing. Otherwise it is verified; success goes to `/order`, and the token
        is not handed to the session store. The step never changes. */
    method HandleVerifyOtp<J>(fetch: Request<OtpBody> -> FetchOutcome, parse: JsonParser<J>)
      modifies this`loading, this`alerts, this`pushed, this`requests
      ensures |otp| != 6 ==>
                alerts == old(alerts) + [BadOtpAlert] && pushed == old(pushed) && requests == old(requests)
                && loading == old(loading)
      ensures |otp| == 6 ==>
                requests == old(requests) + [VerifyRequest(phone, otp)] && !loading
                && var r := VerifyOutcome(fetch(VerifyRequest(phone, otp)), parse);
                   (r.Success? ==> pushed == old(pushed) + [OrderRoute] && alerts == old(alerts) + [LoggedInAlert])
                   && (r.Failure? ==> pushed == old(pushed) && alerts == old(alerts) + [FailureAlert(r.error.message)])
    {
      if |otp| != 6 {
        alerts := alerts + [BadOtpAlert];
        return;
      }
      loading := true;
      requests := requests + [VerifyRequest(phone, otp)];
      var result := VerifyPhone(phone, otp, fetch, parse);
      if result.Success? {
        alerts := alerts + [LoggedInAlert];
        pushed := pushed + [OrderRoute];
      } else {
        alerts := alerts + [FailureAlert(result.error.message)];
      }
      loading := false;
    }
  }
}
