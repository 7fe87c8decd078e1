/** What the screens show or do outside their own state: alerts and navigation. */
module Ui {
  import opened Wrappers

  /** `Alert.alert(title)` or `Alert.alert(title, message)`. */
  datatype Alert = Alert(title: string, message: Option<string>)

  const OrderRoute := "/order"
  const LoginRoute := "/"
  const ProfileRoute := "/(tabs)/profile"
}
